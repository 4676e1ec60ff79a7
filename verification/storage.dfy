/**
 * The browser's key-value store as the players use it. Each stored string is
 * kept already parsed: a number, a boolean flag, or the object mapping sound
 * ids to volumes.
 */
module Storage {
  import opened Wrappers

  datatype Value = Num(n: real) | Flag(b: bool) | Volumes(m: map<string, real>)

  type Store = map<string, Value>

  const SoundVolumeKey := "soundVolumeStorage"
  const MusicVolumeKey := "musicVolumeStorage"
  const LoopKey := "loopSongStorage"
  const ShuffleKey := "shuffleStorage"

  /** getStoredSoundVolumes: the stored id -> volume object, or the empty object. */
  function StoredSoundVolumes(store: Store): (m: map<string, real>)
    ensures SoundVolumeKey !in store ==> m == map[]
    ensures SoundVolumeKey in store && store[SoundVolumeKey].Volumes? ==> m == store[SoundVolumeKey].m
  {
    if SoundVolumeKey in store && store[SoundVolumeKey].Volumes? then store[SoundVolumeKey].m else map[]
  }

  /** The music player's one shared volume slot, if something is stored there. */
  function StoredMusicVolume(store: Store): (v: Option<real>)
    ensures v.None? <==> MusicVolumeKey !in store || !store[MusicVolumeKey].Num?
    ensures v.Some? ==> store[MusicVolumeKey] == Num(v.value)
  {
    if MusicVolumeKey in store && store[MusicVolumeKey].Num? then Some(store[MusicVolumeKey].n) else None
  }

  /** A stored boolean preference; false when nothing is stored. */
  function StoredFlag(store: Store, key: string): (b: bool)
    ensures b <==> key in store && store[key] == Flag(true)
  {
    key in store && store[key].Flag? && store[key].b
  }

  /**
   * What a player writes it reads back, and a write under one key leaves
   * the reads under the other keys as they were.
   */
  lemma WriteThenRead(store: Store, m: map<string, real>, v: real, b: bool, key: string)
    requires key != SoundVolumeKey && key != MusicVolumeKey
    ensures StoredSoundVolumes(store[SoundVolumeKey := Volumes(m)]) == m
    ensures StoredMusicVolume(store[MusicVolumeKey := Num(v)]) == Some(v)
    ensures StoredFlag(store[key := Flag(b)], key) == b
    ensures StoredSoundVolumes(store[key := Flag(b)]) == StoredSoundVolumes(store)
    ensures StoredMusicVolume(store[key := Flag(b)]) == StoredMusicVolume(store)
    ensures StoredSoundVolumes(store[MusicVolumeKey := Num(v)]) == StoredSoundVolumes(store)
  {
  }
}
