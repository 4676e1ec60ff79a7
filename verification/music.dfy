/**
 * The music player: one active song loaded into a single shared audio
 * element, circular next/prev, the shuffle bag (queue and history),
 * loop-on-end, and the persisted loop, shuffle and volume settings.
 *
 * The pure part (a `Deck` and its transitions) states what each handler
 * does; the class `MusicPlayer` holds the component's state and its
 * methods are proved to perform exactly those transitions.
 */
module Music {
  import opened Wrappers
  import opened Storage
  import opened Tracks
  import opened Shuffle
  import opened Playlist

  /** What song navigation changes: the active record, the shared audio element, the shuffle queue and history. */
  datatype Deck = Deck(active: Option<ActiveSong>, audio: AudioEl, queue: seq<Song>, history: seq<Song>)

  /** setNewActiveSong applied to a deck. */
  function Activate(d: Deck, song: Song, stored: Option<real>): (r: Deck)
    ensures r.queue == d.queue && r.history == d.history
    ensures r.active.Some? && Shows(r.active.value, song)
    ensures r.active == Some(Carried(song, d.active, stored))
    ensures r.audio.src == song.url && r.audio.volume == r.active.value.volume && r.audio.currentTime == 0.0
    ensures r.audio.playing <==> d.active.Some? && d.active.value.isPlaying
  {
    var a := Carried(song, d.active, stored);
    d.(active := Some(a), audio := Loaded(d.audio, song, a))
  }

  /**
   * nextShuffle. With songs left in the queue its head becomes active and
   * moves to the end of the history; with none left the whole playlist is
   * reshuffled into a new cycle. Its caller, nextSong, has already returned
   * on an empty playlist.
   */
  function NextShuffled(songs: seq<Song>, stored: Option<real>, d: Deck, js: seq<nat>): (r: Deck)
    requires |songs| > 0 && Choices(js, |songs|)
    ensures d.active.None? ==> r == d
    ensures d.active.Some? ==> r.history != [] && r.active == Some(Carried(r.history[|r.history| - 1], d.active, stored))
    ensures d.active.Some? ==> r.audio == Loaded(d.audio, r.history[|r.history| - 1], r.active.value)
    ensures d.active.Some? && d.queue != [] ==>
      && r.queue == d.queue[1..]
      && r.history == d.history + [d.queue[0]]
      && r.history + r.queue == d.history + d.queue
    ensures d.active.Some? && d.queue == [] ==>
      && r.history + r.queue == Shuffled(songs, js)
      && |r.history| == 1
      && multiset(r.history + r.queue) == multiset(songs)
  {
    if d.active.None? then d
    else if d.queue == [] then
      ShuffledIsPermutation(songs, js);
      var order := Shuffled(songs, js);
      assert [order[0]] + order[1..] == order;
      Activate(d.(queue := order[1..], history := [order[0]]), order[0], stored)
    else
      assert d.history + [d.queue[0]] + d.queue[1..] == d.history + d.queue;
      Activate(d.(queue := d.queue[1..], history := d.history + [d.queue[0]]), d.queue[0], stored)
  }

  /**
   * prevShuffle. With at most one song in the history it does nothing;
   * otherwise the current song leaves the history for the front of the
   * queue and the new last song of the history becomes active.
   */
  function PrevShuffled(stored: Option<real>, d: Deck): (r: Deck)
    ensures d.active.None? || |d.history| <= 1 ==> r == d
    ensures d.active.Some? && |d.history| > 1 ==>
      && r.history == d.history[..|d.history| - 1]
      && r.queue == [d.history[|d.history| - 1]] + d.queue
      && r.active == Some(Carried(r.history[|r.history| - 1], d.active, stored))
      && r.audio == Loaded(d.audio, r.history[|r.history| - 1], r.active.value)
      && r.history + r.queue == d.history + d.queue
  {
    if d.active.None? || |d.history| <= 1 then d
    else
      var current := d.history[|d.history| - 1];
      var rest := d.history[..|d.history| - 1];
      assert rest + ([current] + d.queue) == d.history + d.queue;
      // `if (previous)` always holds here: `rest` is non-empty and song records are truthy.
      Activate(d.(queue := [current] + d.queue, history := rest), rest[|rest| - 1], stored)
  }

  /** nextSong: the shuffle bag when shuffle is on, else the following song of the playlist, circularly. */
  function Next(songs: seq<Song>, shuffle: bool, stored: Option<real>, d: Deck, js: seq<nat>): (r: Deck)
    requires Choices(js, |songs|)
    ensures d.active.None? || |songs| == 0 ==> r == d
    ensures shuffle && d.active.Some? && |songs| > 0 ==> r == NextShuffled(songs, stored, d, js)
    ensures !shuffle ==> r.queue == d.queue && r.history == d.history
    ensures !shuffle && Neighbour(songs, d.active, true).None? ==> r == d
    ensures !shuffle && Neighbour(songs, d.active, true).Some? ==>
      && r.active == Some(Carried(Neighbour(songs, d.active, true).value, d.active, stored))
      && r.audio == Loaded(d.audio, Neighbour(songs, d.active, true).value, r.active.value)
  {
    if d.active.None? || |songs| == 0 then d
    else if shuffle then NextShuffled(songs, stored, d, js)
    else match Neighbour(songs, d.active, true)
      case None => d
      case Some(song) => Activate(d, song, stored)
  }

  /** prevSong: back through the shuffle history when shuffle is on, else the preceding song, circularly. */
  function Prev(songs: seq<Song>, shuffle: bool, stored: Option<real>, d: Deck): (r: Deck)
    ensures d.active.None? || |songs| == 0 ==> r == d
    ensures shuffle && d.active.Some? && |songs| > 0 ==> r == PrevShuffled(stored, d)
    ensures !shuffle ==> r.queue == d.queue && r.history == d.history
    ensures !shuffle && Neighbour(songs, d.active, false).None? ==> r == d
    ensures !shuffle && Neighbour(songs, d.active, false).Some? ==>
      && r.active == Some(Carried(Neighbour(songs, d.active, false).value, d.active, stored))
      && r.audio == Loaded(d.audio, Neighbour(songs, d.active, false).value, r.active.value)
  {
    if d.active.None? || |songs| == 0 then d
    else if shuffle then PrevShuffled(stored, d)
    else match Neighbour(songs, d.active, false)
      case None => d
      case Some(song) => Activate(d, song, stored)
  }

  /**
   * handleSongEnd: with loop on or fewer than two songs the same song restarts
   * from position 0; otherwise the player moves on exactly as nextSong does.
   */
  function SongEnded(songs: seq<Song>, loopSong: bool, shuffle: bool, stored: Option<real>, d: Deck, js: seq<nat>): (r: Deck)
    requires Choices(js, |songs|)
    ensures d.active.None? || |songs| == 0 ==> r == d
    ensures d.active.Some? && |songs| > 0 && (loopSong || |songs| < 2) ==>
      && r.active == d.active && r.queue == d.queue && r.history == d.history
      && r.audio.currentTime == 0.0 && r.audio.src == d.audio.src && r.audio.volume == d.audio.volume
      && r.audio.playing && r.audio.plays == d.audio.plays + 1
      && r.audio == Play(d.audio.(currentTime := 0.0))
    ensures d.active.Some? && |songs| >= 2 && !loopSong ==> r == Next(songs, shuffle, stored, d, js)
  {
    if d.active.None? || |songs| == 0 then d
    else if loopSong || |songs| < 2 then d.(audio := Play(d.audio.(currentTime := 0.0)))
    else Next(songs, shuffle, stored, d, js)
  }

  /**
   * The initial-load effect, run whenever the song list changes: nothing for
   * an empty list; with shuffle on a fresh cycle whose first song is active;
   * otherwise the first song of the list becomes active.
   */
  function Initialised(songs: seq<Song>, shuffle: bool, stored: Option<real>, d: Deck, js: seq<nat>): (r: Deck)
    requires Choices(js, |songs|)
    ensures |songs| == 0 ==> r == d
    ensures |songs| > 0 && !shuffle ==>
      && r.queue == d.queue && r.history == d.history && r.active == Some(Carried(songs[0], d.active, stored))
      && r.audio == Loaded(d.audio, songs[0], r.active.value)
    ensures |songs| > 0 && shuffle ==>
      && r.history + r.queue == Shuffled(songs, js)
      && |r.history| == 1
      && r.active == Some(Carried(r.history[0], d.active, stored))
      && r.audio == Loaded(d.audio, r.history[0], r.active.value)
      && multiset(r.history + r.queue) == multiset(songs)
  {
    if |songs| == 0 then d
    else if shuffle then
      ShuffledIsPermutation(songs, js);
      var shuffled := Shuffled(songs, js);
      assert [shuffled[0]] + shuffled[1..] == shuffled;
      Activate(d.(queue := shuffled[1..], history := [shuffled[0]]), shuffled[0], stored)
    else Activate(d, songs[0], stored)
  }

  /** A load with shuffle on builds exactly the deck that a reshuffle in nextShuffle builds. */
  lemma LoadMatchesReshuffle(songs: seq<Song>, stored: Option<real>, d: Deck, js: seq<nat>)
    requires |songs| > 0 && Choices(js, |songs|) && d.active.Some? && d.queue == []
    ensures Initialised(songs, true, stored, d, js) == NextShuffled(songs, stored, d, js)
  {
  }

  /** `k` presses of next within a shuffle cycle. */
  function Advance(songs: seq<Song>, stored: Option<real>, d: Deck, js: seq<nat>, k: nat): (r: Deck)
    requires |songs| > 0 && Choices(js, |songs|)
    decreases k
  {
    if k == 0 then d else Advance(songs, stored, NextShuffled(songs, stored, d, js), js, k - 1)
  }

  /** Within a cycle, k presses of next move the first k queued songs, in order, onto the history. */
  lemma {:induction false} AdvanceThroughQueue(songs: seq<Song>, stored: Option<real>, d: Deck, js: seq<nat>, k: nat)
    requires |songs| > 0 && Choices(js, |songs|) && d.active.Some? && k <= |d.queue|
    ensures Advance(songs, stored, d, js, k).active.Some?
    ensures Advance(songs, stored, d, js, k).history == d.history + d.queue[..k]
    ensures Advance(songs, stored, d, js, k).queue == d.queue[k..]
    decreases k
  {
    if k > 0 {
      var d1 := NextShuffled(songs, stored, d, js);
      AdvanceThroughQueue(songs, stored, d1, js, k - 1);
      assert d.history + [d.queue[0]] + d.queue[1..][..k - 1] == d.history + d.queue[..k];
      assert d.queue[1..][k - 1..] == d.queue[k..];
    }
  }

  /**
   * The shuffle bag: from an exhausted queue, n presses of next (n the
   * playlist length) play a permutation of the playlist, each song as often
   * as it is listed, before the queue is empty again.
   */
  lemma ShuffleCycleCoversPlaylist(songs: seq<Song>, stored: Option<real>, d: Deck, js: seq<nat>)
    requires |songs| > 0 && Choices(js, |songs|) && d.active.Some? && d.queue == []
    ensures Advance(songs, stored, d, js, |songs|).queue == []
    ensures Advance(songs, stored, d, js, |songs|).history == Shuffled(songs, js)
    ensures multiset(Advance(songs, stored, d, js, |songs|).history) == multiset(songs)
  {
    ShuffledIsPermutation(songs, js);
    var start := NextShuffled(songs, stored, d, js);
    AdvanceThroughQueue(songs, stored, start, js, |songs| - 1);
    assert start.queue[..|songs| - 1] == start.queue;
  }

  /** Within a cycle, prev undoes next: queue, history and the active record come back. */
  lemma ShuffleRoundTrip(songs: seq<Song>, stored: Option<real>, d: Deck, js: seq<nat>)
    requires |songs| > 0 && Choices(js, |songs|)
    requires d.active.Some? && d.queue != [] && d.history != []
    requires Shows(d.active.value, d.history[|d.history| - 1])
    requires stored.Some? ==> d.active.value.volume == stored.value
    ensures PrevShuffled(stored, NextShuffled(songs, stored, d, js)).queue == d.queue
    ensures PrevShuffled(stored, NextShuffled(songs, stored, d, js)).history == d.history
    ensures PrevShuffled(stored, NextShuffled(songs, stored, d, js)).active == d.active
  {
    var d1 := NextShuffled(songs, stored, d, js);
    assert d1.history[..|d1.history| - 1] == d.history;
  }

  /** Without shuffle and with distinct ids, prevSong after nextSong restores the active record. */
  lemma NextPrevRoundTrip(songs: seq<Song>, stored: Option<real>, d: Deck, js: seq<nat>, k: nat)
    requires Choices(js, |songs|) && UniqueIds(songs) && k < |songs|
    requires d.active.Some? && Shows(d.active.value, songs[k])
    requires stored.Some? ==> d.active.value.volume == stored.value
    ensures Prev(songs, false, stored, Next(songs, false, stored, d, js)).active == d.active
    ensures Prev(songs, false, stored, Next(songs, false, stored, d, js)).queue == d.queue
    ensures Prev(songs, false, stored, Next(songs, false, stored, d, js)).history == d.history
  {
    ActiveRoundTrip(songs, k, d.active.value, stored);
  }

  /** `songs.filter(s => s.id !== id)` */
  function Without(songs: seq<Song>, id: string): (r: seq<Song>)
    ensures |r| <= |songs|
  {
    if |songs| == 0 then []
    else if songs[0].id != id then [songs[0]] + Without(songs[1..], id)
    else Without(songs[1..], id)
  }

  /** The filter keeps exactly the songs with another id. */
  lemma {:induction false} WithoutMembers(songs: seq<Song>, id: string)
    ensures forall s :: s in Without(songs, id) <==> s in songs && s.id != id
  {
    if |songs| > 0 {
      WithoutMembers(songs[1..], id);
      assert songs == [songs[0]] + songs[1..];
    }
  }

  /** The songs the shuffle queue is built from: every song except the active one. */
  function Remaining(songs: seq<Song>, active: Option<ActiveSong>): (r: seq<Song>)
    ensures |r| <= |songs|
    ensures forall s :: s in r <==> s in songs && (active.None? || s.id != active.value.id)
  {
    if active.None? then songs else WithoutMembers(songs, active.value.id); Without(songs, active.value.id)
  }

  /**
   * The history that enabling shuffle starts from: the playlist's entry for
   * the active song, or nothing when there is no active song or it is no
   * longer listed.
   */
  function HistorySeed(songs: seq<Song>, active: Option<ActiveSong>): (h: seq<Song>)
    ensures |h| <= 1
    ensures h != [] ==> active.Some? && h[0] in songs && h[0].id == active.value.id
    ensures h == [] <==> active.None? || forall k :: 0 <= k < |songs| ==> songs[k].id != active.value.id
  {
    if active.None? then []
    else match FindIndex(songs, active.value.id)
      case None => []
      case Some(k) => [songs[k]]
  }

  /**
   * The history exactly as enabling shuffle builds it: `[activeSong]`, the
   * active record itself, which carries no url.
   */
  function HistorySeedAsWritten(active: Option<ActiveSong>): (h: seq<Song>)
    ensures active.None? ==> h == []
    ensures active.Some? ==> |h| == 1 && h[0].id == active.value.id && h[0].url.None?
  {
    if active.None? then [] else [Song(active.value.id, active.value.name, active.value.author, None)]
  }

  lemma {:induction false} WithoutAbsent(songs: seq<Song>, id: string)
    requires forall k :: 0 <= k < |songs| ==> songs[k].id != id
    ensures Without(songs, id) == songs
  {
    if |songs| > 0 {
      WithoutAbsent(songs[1..], id);
    }
  }

  lemma {:induction false} WithoutPresent(songs: seq<Song>, k: nat)
    requires UniqueIds(songs) && k < |songs|
    ensures multiset(Without(songs, songs[k].id)) + multiset{songs[k]} == multiset(songs)
  {
    var id, tail := songs[k].id, songs[1..];
    assert songs == [songs[0]] + tail;
    if k == 0 {
      forall i | 0 <= i < |tail| ensures tail[i].id != id {
        assert tail[i] == songs[i + 1];
      }
      WithoutAbsent(tail, id);
    } else {
      assert UniqueIds(tail) by {
        forall a, b | 0 <= a < b < |tail| ensures tail[a].id != tail[b].id {
          assert tail[a] == songs[a + 1] && tail[b] == songs[b + 1];
        }
      }
      assert tail[k - 1] == songs[k];
      WithoutPresent(tail, k - 1);
      assert Without(songs, id) == [songs[0]] + Without(tail, id);
    }
  }

  /**
   * Enabling shuffle splits the playlist between history and queue: with
   * distinct ids, history ++ queue is a permutation of the songs.
   */
  lemma ToggleShuffleKeepsPlaylist(songs: seq<Song>, active: Option<ActiveSong>, js: seq<nat>)
    requires UniqueIds(songs) && Choices(js, |songs|)
    ensures multiset(HistorySeed(songs, active) + Shuffled(Remaining(songs, active), js)) == multiset(songs)
  {
    ShuffledIsPermutation(Remaining(songs, active), js);
    if active.Some? {
      match FindIndex(songs, active.value.id)
      case None => WithoutAbsent(songs, active.value.id);
      case Some(k) => WithoutPresent(songs, k);
    }
  }

  /**
   * The record put into the history by enabling shuffle is not the
   * playlist's song: when prev later returns to it, the audio element is
   * given no source, while the intended history entry reloads the song's url.
   */
  lemma HistorySeedAsWrittenLosesSource(songs: seq<Song>, stored: Option<real>, d: Deck, k: nat, js: seq<nat>)
    requires |songs| > 0 && Choices(js, |songs|) && UniqueIds(songs)
    requires k < |songs| && songs[k].url.Some?
    requires d.active.Some? && d.active.value.id == songs[k].id && d.queue != []
    ensures HistorySeedAsWritten(d.active)[0] !in songs
    ensures PrevShuffled(stored, NextShuffled(songs, stored, d.(history := HistorySeedAsWritten(d.active)), js)).audio.src.None?
    ensures PrevShuffled(stored, NextShuffled(songs, stored, d.(history := HistorySeed(songs, d.active)), js)).audio.src == songs[k].url
  {
    FindIndexOfUnique(songs, k);
    var bad := NextShuffled(songs, stored, d.(history := HistorySeedAsWritten(d.active)), js);
    assert bad.history[..|bad.history| - 1] == HistorySeedAsWritten(d.active);
    var good := NextShuffled(songs, stored, d.(history := HistorySeed(songs, d.active)), js);
    assert good.history[..|good.history| - 1] == [songs[k]];
  }

  /** The MusicPlayer component. `play` and `masterVolume` are props passed to the effects that read them. */
  class MusicPlayer {
    var songs: seq<Song>
    var active: Option<ActiveSong>
    var audio: AudioEl
    var loopSong: bool
    var shuffle: bool
    var queue: seq<Song>
    var history: seq<Song>
    var store: Store

    function State(): Deck
      reads this
    {
      Deck(active, audio, queue, history)
    }

    /** Mounting: loop and shuffle come from the store (false when absent); nothing is active yet. */
    constructor (store: Store)
      ensures this.store == store && songs == []
      ensures loopSong == StoredFlag(store, LoopKey) && shuffle == StoredFlag(store, ShuffleKey)
      ensures State() == Deck(None, NewAudio(None), [], [])
    {
      this.store := store;
      songs := [];
      active := None;
      audio := NewAudio(None);
      loopSong := StoredFlag(store, LoopKey);
      shuffle := StoredFlag(store, ShuffleKey);
      queue := [];
      history := [];
    }

    /** A new song list arrives and the initial-load effect runs. */
    method LoadSongs(newSongs: seq<Song>, js: seq<nat>)
      requires Choices(js, |newSongs|)
      modifies this`songs, this`active, this`audio, this`queue, this`history
      ensures songs == newSongs
      ensures State() == Initialised(newSongs, shuffle, StoredMusicVolume(store), old(State()), js)
    {
      songs := newSongs;
      if |songs| == 0 {
        return;
      }
      if shuffle {
        var shuffled := ArrayShuffle(songs, js);
        queue := shuffled[1..];
        history := [shuffled[0]];
        SetNewActiveSong(shuffled[0]);
      } else {
        SetNewActiveSong(songs[0]);
      }
    }

    /** setNewActiveSong: load `song` into the shared element, carrying volume and playing state over. */
    method SetNewActiveSong(song: Song)
      modifies this`active, this`audio
      ensures State() == Activate(old(State()), song, StoredMusicVolume(store))
    {
      var storedVolume := StoredMusicVolume(store);
      var volume := if storedVolume.Some? then storedVolume.value
                    else if active.Some? then active.value.volume else 0.0;
      // A new source restarts the element's load: position 0, paused.
      audio := audio.(src := song.url, currentTime := 0.0, playing := false);
      audio := audio.(volume := volume);
      var isPlaying := active.Some? && active.value.isPlaying;
      if isPlaying {
        audio := Play(audio);
      }
      active := Some(ActiveSong(song.id, song.name, song.author, volume, isPlaying));
    }

    /** The play/pause effect: the active song plays iff play is on and both its volume and the master volume are positive. */
    method PlayPause(play: bool, masterVolume: real)
      modifies this`active, this`audio
      ensures old(active).None? ==> active == None && audio == old(audio)
      ensures old(active).Some? ==>
        && active == Some(old(active).value.(isPlaying := play && old(active).value.volume > 0.0 && masterVolume > 0.0))
        && audio == if active.value.isPlaying then Play(old(audio)) else Pause(old(audio))
      ensures active.Some? && 0.0 <= active.value.volume && 0.0 <= masterVolume ==>
        (active.value.isPlaying <==> play && active.value.volume * masterVolume > 0.0)
    {
      if active.None? {
        return;
      }
      var song := active.value;
      if play && song.volume > 0.0 && masterVolume > 0.0 {
        audio := Play(audio);
        active := Some(song.(isPlaying := true));
      } else {
        audio := Pause(audio);
        active := Some(song.(isPlaying := false));
      }
      if 0.0 <= song.volume && 0.0 <= masterVolume {
        EffectivePositive(song.volume, masterVolume);
      }
    }

    /** The master-volume effect: the element plays at the song's volume times the master volume. */
    method ApplyMasterVolume(masterVolume: real)
      modifies this`audio
      ensures active.None? ==> audio == old(audio)
      ensures active.Some? ==> audio == old(audio).(volume := active.value.volume * masterVolume)
    {
      if active.Some? {
        audio := audio.(volume := active.value.volume * masterVolume);
      }
    }

    /** The reset effect: the active song's volume and the stored music volume become 0. */
    method ResetVolume()
      modifies this`active, this`audio, this`store
      ensures old(active).None? ==> active == None && audio == old(audio) && store == old(store)
      ensures old(active).Some? ==>
        && active == Some(old(active).value.(volume := 0.0))
        && audio == old(audio).(volume := 0.0)
        && store == old(store)[MusicVolumeKey := Num(0.0)]
        && StoredMusicVolume(store) == Some(0.0)
    {
      if active.None? {
        return;
      }
      audio := audio.(volume := 0.0);
      active := Some(active.value.(volume := 0.0));
      store := store[MusicVolumeKey := Num(0.0)];
    }

    /** handleSongEnd, reading the current state. */
    method HandleSongEnd(js: seq<nat>)
      requires Choices(js, |songs|)
      modifies this`active, this`audio, this`queue, this`history
      ensures State() == SongEnded(songs, loopSong, shuffle, StoredMusicVolume(store), old(State()), js)
    {
      if active.None? || |songs| == 0 {
        return;
      }
      if loopSong || |songs| < 2 {
        audio := audio.(currentTime := 0.0);
        audio := Play(audio);
        return;
      }
      NextSong(js);
    }

    /** nextSong */
    method NextSong(js: seq<nat>)
      requires Choices(js, |songs|)
      modifies this`active, this`audio, this`queue, this`history
      ensures State() == Next(songs, shuffle, StoredMusicVolume(store), old(State()), js)
    {
      if active.None? || |songs| == 0 {
        return;
      }
      if shuffle {
        NextShuffle(js);
        return;
      }
      var currentIndex := FindIndex(songs, active.value.id);
      if currentIndex.None? {
        return;
      }
      var nextIndex := NextIndex(currentIndex.value, |songs|);
      SetNewActiveSong(songs[nextIndex]);
    }

    /** prevSong */
    method PrevSong()
      modifies this`active, this`audio, this`queue, this`history
      ensures State() == Prev(songs, shuffle, StoredMusicVolume(store), old(State()))
    {
      if active.None? || |songs| == 0 {
        return;
      }
      if shuffle {
        PrevShuffle();
        return;
      }
      var currentIndex := FindIndex(songs, active.value.id);
      if currentIndex.None? {
        return;
      }
      var prevIndex := PrevIndex(currentIndex.value, |songs|);
      SetNewActiveSong(songs[prevIndex]);
    }

    /** nextShuffle */
    method NextShuffle(js: seq<nat>)
      requires |songs| > 0 && Choices(js, |songs|)
      modifies this`active, this`audio, this`queue, this`history
      ensures State() == NextShuffled(songs, StoredMusicVolume(store), old(State()), js)
    {
      if active.None? {
        return;
      }
      if |queue| == 0 {
        var shuffled := ArrayShuffle(songs, js);
        var first, restQueue := shuffled[0], shuffled[1..];
        queue := restQueue;
        history := [first];
        SetNewActiveSong(first);
        return;
      }
      var next, restQueue := queue[0], queue[1..];
      queue := restQueue;
      history := history + [next];
      SetNewActiveSong(next);
    }

    /** prevShuffle */
    method PrevShuffle()
      modifies this`active, this`audio, this`queue, this`history
      ensures State() == PrevShuffled(StoredMusicVolume(store), old(State()))
    {
      if active.None? || |history| <= 1 {
        return;
      }
      var historyCopy, queueCopy := history, queue;
      var current := historyCopy[|historyCopy| - 1];
      historyCopy := historyCopy[..|historyCopy| - 1];
      var previous := historyCopy[|historyCopy| - 1];
      queue := [current] + queueCopy;
      history := historyCopy;
      SetNewActiveSong(previous);
    }

    /** handleMusicVolumeChange: the raw value goes to the song and the store, the element gets value * master. */
    method MusicVolumeChange(value: real, masterVolume: real)
      modifies this`active, this`audio, this`store
      ensures old(active).None? ==> active == None && audio == old(audio) && store == old(store)
      ensures old(active).Some? ==>
        && active == Some(old(active).value.(volume := value))
        && audio == old(audio).(volume := value * masterVolume)
        && store == old(store)[MusicVolumeKey := Num(value)]
        && StoredMusicVolume(store) == Some(value)
    {
      if active.None? {
        return;
      }
      audio := audio.(volume := value * masterVolume);
      active := Some(active.value.(volume := value));
      store := store[MusicVolumeKey := Num(value)];
    }

    /** toggleLoop: flips the flag and persists it. */
    method ToggleLoop()
      modifies this`loopSong, this`store
      ensures loopSong == !old(loopSong)
      ensures store == old(store)[LoopKey := Flag(loopSong)]
      ensures StoredFlag(store, LoopKey) == loopSong
    {
      var newLoopState := !loopSong;
      loopSong := newLoopState;
      store := store[LoopKey := Flag(newLoopState)];
    }

    /**
     * toggleShuffle: flips and persists the flag. Turning it on queues a
     * shuffle of every other song and starts the history at the active
     * song; turning it off empties both.
     */
    method ToggleShuffle(js: seq<nat>)
      requires Choices(js, |songs|)
      modifies this`shuffle, this`store, this`queue, this`history
      ensures shuffle == !old(shuffle)
      ensures store == old(store)[ShuffleKey := Flag(shuffle)]
      ensures shuffle ==> queue == Shuffled(Remaining(songs, active), js) && history == HistorySeed(songs, active)
      ensures shuffle ==> forall s :: s in queue ==> s in songs && (active.None? || s.id != active.value.id)
      ensures shuffle && UniqueIds(songs) ==> multiset(history + queue) == multiset(songs)
      ensures !shuffle ==> queue == [] && history == []
    {
      var newShuffleState := !shuffle;
      shuffle := newShuffleState;
      store := store[ShuffleKey := Flag(newShuffleState)];
      if newShuffleState {
        var remainingSongs := Remaining(songs, active);
        queue := ArrayShuffle(remainingSongs, js);
        history := HistorySeed(songs, active);
        assert forall s :: s in queue ==> s in multiset(remainingSongs);
        if UniqueIds(songs) {
          ToggleShuffleKeepsPlaylist(songs, active, js);
        }
      } else {
        queue := [];
        history := [];
      }
    }
  }
}
