/**
 * The song list shared by both music players: songs, the active-song record,
 * circular navigation by id, and how a newly loaded song inherits the
 * previous one's volume and playing state.
 */
module Playlist {
  import opened Wrappers
  import opened Tracks

  /** A catalog song. `url` is None where the record carries no url member. */
  datatype Song = Song(id: string, name: string, author: Option<string>, url: Option<string>)

  /** The record the players keep for the song loaded into their one audio element. */
  datatype ActiveSong = ActiveSong(id: string, name: string, author: Option<string>, volume: real, isPlaying: bool)

  ghost predicate UniqueIds(songs: seq<Song>)
  {
    forall a, b :: 0 <= a < b < |songs| ==> songs[a].id != songs[b].id
  }

  /** The active record describes this song. */
  ghost predicate Shows(a: ActiveSong, song: Song)
  {
    a.id == song.id && a.name == song.name && a.author == song.author
  }

  /** `songs.findIndex(s => s.id === id)`, with None for -1. */
  function FindIndex(songs: seq<Song>, id: string): (r: Option<nat>)
    ensures r.Some? ==> r.value < |songs| && songs[r.value].id == id
    ensures r.Some? ==> forall k :: 0 <= k < r.value ==> songs[k].id != id
    ensures r.None? ==> forall k :: 0 <= k < |songs| ==> songs[k].id != id
  {
    if |songs| == 0 then None
    else if songs[0].id == id then Some(0)
    else match FindIndex(songs[1..], id)
      case None => None
      case Some(k) => Some(k + 1)
  }

  /** With distinct ids, looking up a song's id finds that song. */
  lemma FindIndexOfUnique(songs: seq<Song>, k: nat)
    requires UniqueIds(songs) && k < |songs|
    ensures FindIndex(songs, songs[k].id) == Some(k)
  {
  }

  /** `(i + 1) % n`: the following index, wrapping from the last to the first. */
  function NextIndex(i: nat, n: nat): (r: nat)
    requires i < n
    ensures r < n
    ensures r == if i + 1 == n then 0 else i + 1
  {
    (i + 1) % n
  }

  /** `(i - 1 + n) % n`: the preceding index, wrapping from the first to the last. */
  function PrevIndex(i: nat, n: nat): (r: nat)
    requires i < n
    ensures r < n
    ensures r == if i == 0 then n - 1 else i - 1
  {
    (i - 1 + n) % n
  }

  /** Stepping forward then back, or back then forward, returns to the same index. */
  lemma IndexRoundTrip(i: nat, n: nat)
    requires i < n
    ensures PrevIndex(NextIndex(i, n), n) == i
    ensures NextIndex(PrevIndex(i, n), n) == i
  {
  }

  /**
   * The song nextSong (forward) or prevSong moves to when shuffle is off:
   * None when there is no active song, the list is empty, or the active id
   * is not in the list, in which case the handler does nothing.
   */
  function Neighbour(songs: seq<Song>, active: Option<ActiveSong>, forward: bool): (r: Option<Song>)
    ensures r.Some? <==> active.Some? && exists k :: 0 <= k < |songs| && songs[k].id == active.value.id
    ensures r.Some? ==> r.value in songs
    ensures r.Some? ==> exists k ::
      && 0 <= k < |songs| && songs[k].id == active.value.id
      && (forall m :: 0 <= m < k ==> songs[m].id != active.value.id)
      && r.value == songs[if forward then (if k + 1 == |songs| then 0 else k + 1)
                          else (if k == 0 then |songs| - 1 else k - 1)]
  {
    if active.None? || |songs| == 0 then None
    else match FindIndex(songs, active.value.id)
      case None => None
      case Some(k) => Some(songs[if forward then NextIndex(k, |songs|) else PrevIndex(k, |songs|)])
  }

  /**
   * setNewActiveSong / newActiveSong: the record for a newly loaded song. Its
   * volume is the stored music volume if there is one, else the previous
   * active song's, else 0; it is playing exactly when the previous one was.
   */
  function Carried(song: Song, prev: Option<ActiveSong>, stored: Option<real>): (r: ActiveSong)
    ensures Shows(r, song)
    ensures stored.Some? ==> r.volume == stored.value
    ensures stored.None? && prev.Some? ==> r.volume == prev.value.volume
    ensures stored.None? && prev.None? ==> r.volume == 0.0
    ensures r.isPlaying <==> prev.Some? && prev.value.isPlaying
  {
    var volume := match stored
      case Some(v) => v
      case None => if prev.Some? then prev.value.volume else 0.0;
    ActiveSong(song.id, song.name, song.author, volume, prev.Some? && prev.value.isPlaying)
  }

  /**
   * The shared audio element after `song` is loaded into it as the record
   * `a`. Assigning a new source restarts the element's load: position 0,
   * paused, until play() is called for a song that carries playing over.
   */
  function Loaded(audio: AudioEl, song: Song, a: ActiveSong): (r: AudioEl)
    ensures r.src == song.url && r.volume == a.volume && r.currentTime == 0.0
    ensures r.playing == a.isPlaying && r.loop == audio.loop
    ensures r.plays == audio.plays + (if a.isPlaying then 1 else 0) && r.pauses == audio.pauses
  {
    var t := audio.(src := song.url, volume := a.volume, currentTime := 0.0, playing := false);
    if a.isPlaying then Play(t) else t
  }

  /** Volume and playing state survive a change of song when nothing else writes the store. */
  lemma CarryOverKeepsSettings(s1: Song, s2: Song, prev: Option<ActiveSong>, stored: Option<real>)
    ensures Carried(s2, Some(Carried(s1, prev, stored)), stored).volume == Carried(s1, prev, stored).volume
    ensures Carried(s2, Some(Carried(s1, prev, stored)), stored).isPlaying == Carried(s1, prev, stored).isPlaying
  {
  }

  /**
   * With distinct ids, prevSong after nextSong (and nextSong after prevSong)
   * lands on the song that was active.
   */
  lemma NeighbourRoundTrip(songs: seq<Song>, k: nat, a: ActiveSong, stored: Option<real>)
    requires UniqueIds(songs) && k < |songs| && a.id == songs[k].id
    ensures Neighbour(songs, Some(a), true).Some?
    ensures Neighbour(songs, Some(Carried(Neighbour(songs, Some(a), true).value, Some(a), stored)), false) == Some(songs[k])
    ensures Neighbour(songs, Some(a), false).Some?
    ensures Neighbour(songs, Some(Carried(Neighbour(songs, Some(a), false).value, Some(a), stored)), true) == Some(songs[k])
  {
    var n := |songs|;
    FindIndexOfUnique(songs, k);
    IndexRoundTrip(k, n);
    FindIndexOfUnique(songs, NextIndex(k, n));
    FindIndexOfUnique(songs, PrevIndex(k, n));
  }

  /**
   * The whole active record comes back after next-then-prev: the same song,
   * volume and playing state, provided the record was loaded with the
   * stored volume (as every load does once a volume has been stored).
   */
  lemma ActiveRoundTrip(songs: seq<Song>, k: nat, a: ActiveSong, stored: Option<real>)
    requires UniqueIds(songs) && k < |songs| && Shows(a, songs[k])
    requires stored.Some? ==> a.volume == stored.value
    ensures var next := Carried(Neighbour(songs, Some(a), true).value, Some(a), stored);
            Carried(Neighbour(songs, Some(next), false).value, Some(next), stored) == a
    ensures var prev := Carried(Neighbour(songs, Some(a), false).value, Some(a), stored);
            Carried(Neighbour(songs, Some(prev), true).value, Some(prev), stored) == a
  {
    NeighbourRoundTrip(songs, k, a, stored);
  }
}
