/**
 * The ambience mixer (the SoundGrid component): a list of looping sounds
 * reconciled against the global play switch and the master volume, a
 * user-triggered reset, and per-sound volume changes persisted by id.
 */
module Grid {
  import opened Storage
  import opened Tracks

  function Ids(sounds: seq<Sound>): (ids: set<string>)
    ensures forall k :: 0 <= k < |sounds| ==> sounds[k].id in ids
    ensures forall id :: id in ids ==> exists k :: 0 <= k < |sounds| && sounds[k].id == id
  {
    set s | s in sounds :: s.id
  }

  /** `m'` is `m` with every id in `ids` set to 0 and every other key kept. */
  ghost predicate ZeroedFrom(m': map<string, real>, m: map<string, real>, ids: set<string>)
  {
    && m'.Keys == m.Keys + ids
    && (forall id :: id in ids ==> m'[id] == 0.0)
    && (forall id :: id in m && id !in ids ==> m'[id] == m[id])
  }

  /** The reset's loop writing 0 under every sound's id in the stored volume object. */
  method ZeroStoredVolumes(storedVolumes: map<string, real>, sounds: seq<Sound>) returns (r: map<string, real>)
    ensures ZeroedFrom(r, storedVolumes, Ids(sounds))
  {
    r := storedVolumes;
    for i := 0 to |sounds|
      invariant ZeroedFrom(r, storedVolumes, Ids(sounds[..i]))
    {
      assert Ids(sounds[..i + 1]) == Ids(sounds[..i]) + {sounds[i].id} by {
        assert sounds[..i + 1] == sounds[..i] + [sounds[i]];
      }
      r := r[sounds[i].id := 0.0];
    }
    assert sounds[..|sounds|] == sounds;
  }

  /** The SoundGrid component. `play`, `masterVolume` and the reset counter are props. */
  class SoundGrid {
    var sounds: seq<Sound>
    var store: Store

    constructor (sounds: seq<Sound>, store: Store)
      ensures this.sounds == sounds && this.store == store
    {
      this.sounds := sounds;
      this.store := store;
    }

    /**
     * The play/pause effect: every sound's element gets `volume * masterVolume`
     * and plays exactly when that is positive and play is on; play() and
     * pause() are only called on sounds whose state flips, so a second run
     * with the same inputs changes nothing.
     */
    method Reconcile(play: bool, masterVolume: real)
      modifies this`sounds
      ensures |sounds| == |old(sounds)|
      ensures forall i :: 0 <= i < |sounds| ==> sounds[i] == Reconciled(old(sounds)[i], play, masterVolume)
      ensures forall i :: 0 <= i < |sounds| ==> Settled(sounds[i], play, masterVolume)
      ensures (forall i :: 0 <= i < |old(sounds)| ==> Settled(old(sounds)[i], play, masterVolume)) ==> sounds == old(sounds)
    {
      for i := 0 to |sounds|
        invariant |sounds| == |old(sounds)|
        invariant forall k :: 0 <= k < i ==> sounds[k] == Reconciled(old(sounds)[k], play, masterVolume)
        invariant forall k :: i <= k < |sounds| ==> sounds[k] == old(sounds)[k]
      {
        sounds := sounds[i := Reconciled(sounds[i], play, masterVolume)];
      }
      if forall i :: 0 <= i < |old(sounds)| ==> Settled(old(sounds)[i], play, masterVolume) {
        forall i | 0 <= i < |sounds| ensures sounds[i] == old(sounds)[i] {
          SettledIsFixpoint(old(sounds)[i], play, masterVolume);
        }
      }
    }

    /**
     * The reset effect. While the trigger counter is 0 (page load) it does
     * nothing; otherwise every sound is silenced and paused and 0 is stored
     * under every sound id, other stored ids being kept.
     */
    method ResetVolumes(resetVolumes: nat)
      modifies this`sounds, this`store
      ensures resetVolumes == 0 ==> sounds == old(sounds) && store == old(store)
      ensures resetVolumes != 0 ==>
        && |sounds| == |old(sounds)|
        && (forall i :: 0 <= i < |sounds| ==> sounds[i] == Silenced(old(sounds)[i]))
        && SoundVolumeKey in store && store[SoundVolumeKey].Volumes?
        && store == old(store)[SoundVolumeKey := store[SoundVolumeKey]]
        && ZeroedFrom(StoredSoundVolumes(store), StoredSoundVolumes(old(store)), Ids(old(sounds)))
    {
      if resetVolumes == 0 {
        return;
      }
      var value := 0.0;
      var current := sounds;
      var newSounds := seq(|current|, i requires 0 <= i < |current| => current[i].(volume := value, isPlaying := false));
      sounds := newSounds;
      for i := 0 to |sounds|
        invariant |sounds| == |old(sounds)|
        invariant forall k :: 0 <= k < i ==> sounds[k] == Silenced(old(sounds)[k])
        invariant forall k :: i <= k < |sounds| ==> sounds[k] == newSounds[k]
        invariant store == old(store)
      {
        var sound := sounds[i];
        sounds := sounds[i := sound.(audio := Pause(sound.audio.(volume := value)))];
      }
      assert Ids(sounds) == Ids(old(sounds)) by {
        forall id | id in Ids(old(sounds)) ensures id in Ids(sounds) {
          var k :| 0 <= k < |old(sounds)| && old(sounds)[k].id == id;
          assert sounds[k].id == id;
        }
      }
      var storedVolumes := StoredSoundVolumes(store);
      storedVolumes := ZeroStoredVolumes(storedVolumes, sounds);
      store := store[SoundVolumeKey := Volumes(storedVolumes)];
    }

    /**
     * handleSoundVolumeChange: only the sound at `index` changes (raw volume,
     * element at `value * masterVolume`, playing iff audible and play is on),
     * and only its id is rewritten in the stored volume object.
     */
    method SoundVolumeChange(value: real, index: nat, play: bool, masterVolume: real)
      requires index < |sounds|
      modifies this`sounds, this`store
      ensures sounds == old(sounds)[index := VolumeChanged(old(sounds)[index], value, play, masterVolume)]
      ensures sounds[index].volume == value && Settled(sounds[index], play, masterVolume)
      ensures store == old(store)[SoundVolumeKey := Volumes(StoredSoundVolumes(old(store))[old(sounds)[index].id := value])]
      ensures StoredSoundVolumes(store) == StoredSoundVolumes(old(store))[sounds[index].id := value]
    {
      var newSounds := sounds[index := VolumeChanged(sounds[index], value, play, masterVolume)];
      sounds := newSounds;
      var storedVolumes := StoredSoundVolumes(store);
      storedVolumes := storedVolumes[newSounds[index].id := value];
      store := store[SoundVolumeKey := Volumes(storedVolumes)];
    }
  }
}
