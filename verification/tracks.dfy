/**
 * Playable tracks: the audio element every player drives, the ambience sound
 * record, and the per-sound rules that decide whether a sound plays.
 */
module Tracks {
  import opened Wrappers

  /**
   * An HTMLAudioElement as far as the players touch it. Decoding and output
   * are not modelled; `plays` and `pauses` count the calls made on it.
   */
  datatype AudioEl = AudioEl(
    src: Option<string>,
    volume: real,
    loop: bool,
    currentTime: real,
    playing: bool,
    plays: nat,
    pauses: nat)

  /** `new Audio(src)`: full volume, not looping, at the start, paused. */
  function NewAudio(src: Option<string>): (a': AudioEl)
  {
    AudioEl(src, 1.0, false, 0.0, false, 0, 0)
  }

  /** `audio.play()` */
  function Play(a: AudioEl): (a': AudioEl)
  {
    a.(playing := true, plays := a.plays + 1)
  }

  /** `audio.pause()` */
  function Pause(a: AudioEl): (a': AudioEl)
  {
    a.(playing := false, pauses := a.pauses + 1)
  }

  /** One ambience sound: a catalog entry with its user-set volume and its audio element. */
  datatype Sound = Sound(
    id: string,
    name: string,
    isLocal: bool,
    volume: real,
    isPlaying: bool,
    audio: AudioEl)

  /** The sound's element plays at `volume * masterVolume`, and plays exactly when that is audible and the transport is on. */
  ghost predicate Settled(s: Sound, play: bool, masterVolume: real)
  {
    && s.audio.volume == s.volume * masterVolume
    && (s.isPlaying <==> s.volume * masterVolume > 0.0 && play)
  }

  /**
   * The sound grid's reconciliation of one sound: it sets the element's
   * effective volume and calls play() or pause() only when isPlaying flips.
   */
  function Reconciled(s: Sound, play: bool, masterVolume: real): (r: Sound)
    ensures Settled(r, play, masterVolume)
    ensures r.id == s.id && r.name == s.name && r.isLocal == s.isLocal && r.volume == s.volume
    ensures r.audio.src == s.audio.src && r.audio.loop == s.audio.loop && r.audio.currentTime == s.audio.currentTime
    ensures r.audio.plays == s.audio.plays + (if r.isPlaying && !s.isPlaying then 1 else 0)
    ensures r.audio.pauses == s.audio.pauses + (if s.isPlaying && !r.isPlaying then 1 else 0)
    ensures r.isPlaying == s.isPlaying ==> r.audio.playing == s.audio.playing
    ensures r.isPlaying != s.isPlaying ==> r.audio.playing == r.isPlaying
  {
    var effective := s.volume * masterVolume;
    var t := s.(audio := s.audio.(volume := effective));
    if effective > 0.0 then
      if play && !s.isPlaying then t.(audio := Play(t.audio), isPlaying := true)
      else if !play && s.isPlaying then t.(audio := Pause(t.audio), isPlaying := false)
      else t
    else if s.isPlaying then t.(audio := Pause(t.audio), isPlaying := false)
    else t
  }

  /** A settled sound is left exactly as it is: a second reconciliation with the same inputs makes no call. */
  lemma SettledIsFixpoint(s: Sound, play: bool, masterVolume: real)
    requires Settled(s, play, masterVolume)
    ensures Reconciled(s, play, masterVolume) == s
  {
  }

  /** Reconciling twice with the same inputs is the same as reconciling once. */
  lemma ReconcileIdempotent(s: Sound, play: bool, masterVolume: real)
    ensures Reconciled(Reconciled(s, play, masterVolume), play, masterVolume) == Reconciled(s, play, masterVolume)
  {
    SettledIsFixpoint(Reconciled(s, play, masterVolume), play, masterVolume);
  }

  /**
   * A user volume change on one sound: the raw value is kept as the sound's
   * volume, the element gets `value * masterVolume`, and play() or pause()
   * is called according to the new effective volume.
   */
  function VolumeChanged(s: Sound, value: real, play: bool, masterVolume: real): (r: Sound)
    ensures r.volume == value
    ensures Settled(r, play, masterVolume)
    ensures r.id == s.id && r.name == s.name && r.isLocal == s.isLocal
    ensures r.audio.playing == r.isPlaying
    ensures r.audio.plays + r.audio.pauses == s.audio.plays + s.audio.pauses + 1
  {
    var effective := value * masterVolume;
    var audio := s.audio.(volume := effective);
    s.(volume := value,
       isPlaying := effective > 0.0 && play,
       audio := if effective > 0.0 && play then Play(audio) else Pause(audio))
  }

  /** The reset of one sound: volume 0, not playing, its element silenced and paused. */
  function Silenced(s: Sound): (r: Sound)
    ensures r.volume == 0.0 && !r.isPlaying && !r.audio.playing
    ensures r.id == s.id && r.name == s.name && r.isLocal == s.isLocal
    ensures forall play: bool, masterVolume: real :: Settled(r, play, masterVolume)
  {
    s.(volume := 0.0, isPlaying := false, audio := Pause(s.audio.(volume := 0.0)))
  }

  /** For volumes in [0, 1], the product is audible exactly when both factors are. */
  lemma EffectivePositive(volume: real, masterVolume: real)
    requires 0.0 <= volume && 0.0 <= masterVolume
    ensures volume * masterVolume > 0.0 <==> volume > 0.0 && masterVolume > 0.0
  {
    if volume > 0.0 && masterVolume > 0.0 {
      assert volume * masterVolume > 0.0;
    }
  }
}
