/**
 * The earlier, self-contained player page (the MainPlayer component): it
 * builds the sound catalog from the bundled and the user's sounds on mount,
 * steps through the song list in order, and keeps sounds and the song in
 * step with a single play switch. There is no master volume here.
 */
module EarlyPlayer {
  import opened Wrappers
  import opened Storage
  import opened Tracks
  import opened Playlist

  /** A user-added sound as fetched: an id, a name and a source URL. */
  datatype Entry = Entry(id: string, name: string, url: string)

  /** The volume a sound starts with: its stored value, or 0 when nothing is stored for its id. */
  function StartVolume(stored: map<string, real>, id: string): (v: real)
    ensures id in stored ==> v == stored[id]
    ensures id !in stored ==> v == 0.0
  {
    if id in stored then stored[id] else 0.0
  }

  /** A bundled sound prepared for the grid: looping, not playing, at its start volume. */
  function LocalSound(stored: map<string, real>, s: Sound): (r: Sound)
    ensures r.id == s.id && r.name == s.name && r.isLocal == s.isLocal
    ensures !r.isPlaying && r.volume == StartVolume(stored, s.id)
    ensures r.audio == s.audio.(loop := true, volume := r.volume)
  {
    var volume := StartVolume(stored, s.id);
    s.(isPlaying := false, volume := volume, audio := s.audio.(loop := true, volume := volume))
  }

  /** A user sound turned into a grid sound with an element of its own. */
  function UserSound(stored: map<string, real>, e: Entry): (r: Sound)
    ensures r.id == e.id && r.name == e.name && !r.isLocal
    ensures !r.isPlaying && r.volume == StartVolume(stored, e.id)
    ensures r.audio.src == Some(e.url) && r.audio.loop && r.audio.volume == r.volume
    ensures !r.audio.playing && r.audio.currentTime == 0.0 && r.audio.plays == 0 && r.audio.pauses == 0
  {
    var volume := StartVolume(stored, e.id);
    Sound(e.id, e.name, false, volume, false, NewAudio(Some(e.url)).(loop := true, volume := volume))
  }

  /** The element-volume condition under which the play effect touches a sound at all. */
  ghost predicate EarlySettled(s: Sound, play: bool)
  {
    s.audio.volume > 0.0 ==> s.isPlaying == play
  }

  /**
   * The catalog set on mount: the user's sounds first, then the bundled
   * ones, each in its original order, none playing, every element looping
   * at the sound's volume, which is the stored value for its id or 0.
   */
  function Catalog(stored: map<string, real>, local: seq<Sound>, user: seq<Entry>): (r: seq<Sound>)
    ensures |r| == |user| + |local|
    ensures forall i :: 0 <= i < |r| ==>
      && !r[i].isPlaying && r[i].audio.loop && r[i].audio.volume == r[i].volume
      && (r[i].id in stored ==> r[i].volume == stored[r[i].id])
      && (r[i].id !in stored ==> r[i].volume == 0.0)
    ensures forall i :: 0 <= i < |r| ==> EarlySettled(r[i], false)
    ensures forall i :: 0 <= i < |user| ==>
      && r[i].id == user[i].id && r[i].name == user[i].name && !r[i].isLocal
      && r[i].audio.src == Some(user[i].url) && !r[i].audio.playing
      && r[i].audio.plays == 0 && r[i].audio.pauses == 0
    ensures forall i :: 0 <= i < |local| ==>
      && r[|user| + i].id == local[i].id && r[|user| + i].name == local[i].name
      && r[|user| + i].isLocal == local[i].isLocal
      && r[|user| + i].audio == local[i].audio.(loop := true, volume := r[|user| + i].volume)
  {
    seq(|user|, i requires 0 <= i < |user| => UserSound(stored, user[i]))
      + seq(|local|, i requires 0 <= i < |local| => LocalSound(stored, local[i]))
  }

  /**
   * The play effect on one sound: only a sound whose element volume is
   * positive is touched, and then play() or pause() is called only if its
   * playing flag differs from the switch.
   */
  function SyncEarly(s: Sound, play: bool): (r: Sound)
    ensures EarlySettled(r, play)
    ensures EarlySettled(s, play) ==> r == s
    ensures s.audio.volume <= 0.0 ==> r == s
    ensures r.id == s.id && r.name == s.name && r.volume == s.volume && r.audio.volume == s.audio.volume
    ensures r.audio.plays == s.audio.plays + (if r.isPlaying && !s.isPlaying then 1 else 0)
    ensures r.audio.pauses == s.audio.pauses + (if s.isPlaying && !r.isPlaying then 1 else 0)
  {
    if s.audio.volume > 0.0 then
      if play && !s.isPlaying then s.(audio := Play(s.audio), isPlaying := true)
      else if !play && s.isPlaying then s.(audio := Pause(s.audio), isPlaying := false)
      else s
    else s
  }

  /**
   * On a sound whose element plays at its own volume and which is not left
   * playing at volume 0, the early play effect does what the later one does
   * with the master volume at 1.
   */
  lemma SyncEarlyIsReconcileAtFullMaster(s: Sound, play: bool)
    requires s.audio.volume == s.volume && 0.0 <= s.volume
    requires s.volume == 0.0 ==> !s.isPlaying
    ensures SyncEarly(s, play) == Reconciled(s, play, 1.0)
  {
    assert s.volume * 1.0 == s.volume;
    assert s.audio.(volume := s.volume * 1.0) == s.audio;
  }

  /** The MainPlayer component's state; the shared song element is `audio`. */
  class MainPlayer {
    var play: bool
    var sounds: seq<Sound>
    var songs: seq<Song>
    var active: Option<ActiveSong>
    var audio: AudioEl
    var store: Store

    constructor (store: Store)
      ensures !play && sounds == [] && songs == [] && active == None
      ensures audio == NewAudio(None) && this.store == store
    {
      play := false;
      sounds := [];
      songs := [];
      active := None;
      audio := NewAudio(None);
      this.store := store;
    }

    /** The mount effect: the sound catalog from the stored volumes, and the fetched song list. */
    method Mount(local: seq<Sound>, user: seq<Entry>, userSongs: seq<Song>)
      modifies this`sounds, this`songs
      ensures sounds == Catalog(StoredSoundVolumes(store), local, user)
      ensures songs == userSongs
    {
      var storedVolumes := StoredSoundVolumes(store);
      sounds := Catalog(storedVolumes, local, user);
      songs := userSongs;
    }

    /** newActiveSong: load `song` into the shared element, carrying volume and playing state. */
    method NewActiveSong(song: Song)
      modifies this`active, this`audio
      ensures active == Some(Carried(song, old(active), StoredMusicVolume(store)))
      ensures audio == Loaded(old(audio), song, active.value)
    {
      var storedVolume := StoredMusicVolume(store);
      var volume := if storedVolume.Some? then storedVolume.value
                    else if active.Some? then active.value.volume else 0.0;
      // A new source restarts the element's load: position 0, paused.
      audio := audio.(src := song.url, currentTime := 0.0, playing := false);
      audio := audio.(volume := volume);
      var isPlaying := active.Some? && active.value.isPlaying;
      if isPlaying {
        audio := Play(audio);
      }
      active := Some(ActiveSong(song.id, song.name, song.author, volume, isPlaying));
    }

    /** The songs effect: the first song becomes active whenever the list is non-empty. */
    method FirstSong()
      modifies this`active, this`audio
      ensures songs == [] ==> active == old(active) && audio == old(audio)
      ensures songs != [] ==>
        && active == Some(Carried(songs[0], old(active), StoredMusicVolume(store)))
        && audio == Loaded(old(audio), songs[0], active.value)
    {
      if |songs| > 0 {
        NewActiveSong(songs[0]);
      }
    }

    /** togglePlay: flips the play switch. */
    method TogglePlay()
      modifies this`play
      ensures play == !old(play)
    {
      play := !play;
    }

    /**
     * The play/pause effect: every sound is synchronised with the switch,
     * and the active song follows it when its volume is positive.
     */
    method Reconcile()
      modifies this`sounds, this`active, this`audio
      ensures |sounds| == |old(sounds)|
      ensures forall i :: 0 <= i < |sounds| ==> sounds[i] == SyncEarly(old(sounds)[i], play)
      ensures forall i :: 0 <= i < |sounds| ==> EarlySettled(sounds[i], play)
      ensures old(active).None? || old(active).value.volume <= 0.0 ==> active == old(active) && audio == old(audio)
      ensures old(active).Some? && old(active).value.volume > 0.0 ==>
        && active == Some(old(active).value.(isPlaying := play))
        && audio == (if old(active).value.isPlaying == play then old(audio)
                     else if play then Play(old(audio)) else Pause(old(audio)))
    {
      for i := 0 to |sounds|
        invariant |sounds| == |old(sounds)|
        invariant forall k :: 0 <= k < i ==> sounds[k] == SyncEarly(old(sounds)[k], play)
        invariant forall k :: i <= k < |sounds| ==> sounds[k] == old(sounds)[k]
        invariant active == old(active) && audio == old(audio)
      {
        sounds := sounds[i := SyncEarly(sounds[i], play)];
      }
      if active.Some? && active.value.volume > 0.0 {
        var song := active.value;
        if play && !song.isPlaying {
          audio := Play(audio);
          active := Some(song.(isPlaying := true));
        } else if !play && song.isPlaying {
          audio := Pause(audio);
          active := Some(song.(isPlaying := false));
        }
      }
    }

    /** nextSong: the following song in list order, wrapping; nothing happens when there is none. */
    method NextSong()
      modifies this`active, this`audio
      ensures Neighbour(songs, old(active), true).None? ==> active == old(active) && audio == old(audio)
      ensures Neighbour(songs, old(active), true).Some? ==>
        && active == Some(Carried(Neighbour(songs, old(active), true).value, old(active), StoredMusicVolume(store)))
        && audio == Loaded(old(audio), Neighbour(songs, old(active), true).value, active.value)
    {
      if active.None? || |songs| == 0 {
        return;
      }
      var currentIndex := FindIndex(songs, active.value.id);
      if currentIndex.None? {
        return;
      }
      var nextIndex := (currentIndex.value + 1) % |songs|;
      NewActiveSong(songs[nextIndex]);
    }

    /** prevSong: the preceding song in list order, wrapping; nothing happens when there is none. */
    method PrevSong()
      modifies this`active, this`audio
      ensures Neighbour(songs, old(active), false).None? ==> active == old(active) && audio == old(audio)
      ensures Neighbour(songs, old(active), false).Some? ==>
        && active == Some(Carried(Neighbour(songs, old(active), false).value, old(active), StoredMusicVolume(store)))
        && audio == Loaded(old(audio), Neighbour(songs, old(active), false).value, active.value)
    {
      if active.None? || |songs| == 0 {
        return;
      }
      var currentIndex := FindIndex(songs, active.value.id);
      if currentIndex.None? {
        return;
      }
      var prevIndex := (currentIndex.value - 1 + |songs|) % |songs|;
      NewActiveSong(songs[prevIndex]);
    }

    /**
     * handleSoundVolumeChange: the sound at `index` takes the new volume on
     * itself and its element and plays iff the volume is positive and play is
     * on, exactly as the later grid does with the master volume at 1; only
     * its id is rewritten in the stored volume object.
     */
    method SoundVolumeChange(value: real, index: nat)
      requires index < |sounds|
      modifies this`sounds, this`store
      ensures sounds == old(sounds)[index := VolumeChanged(old(sounds)[index], value, play, 1.0)]
      ensures sounds[index].volume == value && EarlySettled(sounds[index], play)
      ensures StoredSoundVolumes(store) == StoredSoundVolumes(old(store))[sounds[index].id := value]
      ensures store == old(store)[SoundVolumeKey := Volumes(StoredSoundVolumes(store))]
    {
      var sound := sounds[index];
      var element := sound.audio.(volume := value);
      element := if value > 0.0 && play then Play(element) else Pause(element);
      var newSounds := sounds[index := sound.(volume := value, isPlaying := value > 0.0 && play, audio := element)];
      assert value * 1.0 == value;
      sounds := newSounds;
      var storedVolumes := StoredSoundVolumes(store);
      storedVolumes := storedVolumes[newSounds[index].id := value];
      store := store[SoundVolumeKey := Volumes(storedVolumes)];
    }

    /**
     * handleMusicVolumeChange: with no active song nothing changes; otherwise
     * the song and its element take the value and it is stored, so every
     * song loaded afterwards starts at that volume.
     */
    method MusicVolumeChange(value: real)
      modifies this`active, this`audio, this`store
      ensures old(active).None? ==> active == None && audio == old(audio) && store == old(store)
      ensures old(active).Some? ==>
        && active == Some(old(active).value.(volume := value))
        && audio == old(audio).(volume := value)
        && store == old(store)[MusicVolumeKey := Num(value)]
      ensures old(active).Some? ==> forall song :: Carried(song, active, StoredMusicVolume(store)).volume == value
    {
      if active.None? {
        return;
      }
      audio := audio.(volume := value);
      active := Some(active.value.(volume := value));
      store := store[MusicVolumeKey := Num(value)];
    }
  }
}
