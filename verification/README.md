# Kieran's Sounds: playback-state engine in Dafny

This project models the client-side playback engine of Kieran's Sounds, an
ambient-sound and music web player, and proves properties of that model. The
engine has four parts:

- **The shuffle.** `arrayShuffle` is a copy-then-swap Fisher–Yates shuffle.
- **The music player** (`MusicPlayer`). One active song is loaded into a single
  shared audio element. The player has:
  - circular next/prev through the playlist;
  - a shuffle bag made of a queue of songs still to play and a history of songs
    already played;
  - a rule for what happens when a song ends (restart it, or move on);
  - loop and shuffle flags, and a music volume, all persisted in localStorage.
- **The ambience mixer** (`SoundGrid`). It keeps a list of looping sounds. Each
  sound's element plays at `volume × masterVolume` and plays exactly when that
  product is positive and the global play switch is on. The mixer also has a
  reset-all action, started by a counter the UI increments, and per-sound volume
  changes that are stored by sound id.
- **The earlier player page** (`MainPlayer`). It builds the sound catalog from
  the user's sounds and the bundled ones, and steps through the songs in order.
  It has a single play switch and no master volume.

## Layout

- `wrappers.dfy`: `Option`.
- `storage.dfy`: localStorage modelled as a map from key to value. A value is a
  number, a flag, or an id→volume object. The module has its four keys and the
  reads that fall back to a default.
- `tracks.dfy`: three pieces.
  - The audio element is a record: source, volume, loop, position and a playing
    flag. It also counts the calls to play() and pause().
  - The sound record.
  - The per-sound rules: reconcile, volume change and reset.
- `shuffle.dfy`: the shuffle. `Math.random` is replaced by an index oracle `js`,
  where `js[i] <= i` is the index drawn in the iteration for `i`. `Pick` and
  `ChoicesOf` show that `Math.floor(Math.random() * (i + 1))` always yields such
  an index.
- `playlist.dfy`: the song and active-song records. It has `findIndex`, circular
  index arithmetic and the neighbour song. It also has the volume/playing
  carry-over used when a song is loaded.
- `music.dfy`: the music player.
  - The transitions are pure functions on a `Deck`: the active record, the
    shared element, the queue and the history.
  - The `MusicPlayer` class holds the component's state. The navigation
    handlers (`LoadSongs`, `SetNewActiveSong`, `HandleSongEnd`, `NextSong`,
    `PrevSong`, `NextShuffle`, `PrevShuffle`) are each proved to perform
    exactly one of those transitions. The other handlers (play/pause, master
    volume, reset, music volume, loop and shuffle toggles) state their new
    fields and store directly.
- `grid.dfy`: the `SoundGrid` class, whose handlers update its sound list and
  its store.
- `earlyplayer.dfy`: the earlier `MainPlayer` page, as a class.

Props (`play`, `masterVolume`, the reset counter) are method parameters. Each
React effect or handler is one method that reads the current state. Random draws
are an input sequence.

## Model

| member | source | states |
|---|---|---|
| Storage.StoredSoundVolumes | client/src/util/getStoredSoundVolumes.js:1-5 | The stored id→volume object, or the empty object `{}` when nothing is stored. |
| Storage.StoredMusicVolume | client/src/components/MusicPlayer.jsx:110-115 | The stored music volume, or none when nothing is stored under its key. |
| Storage.StoredFlag | client/src/components/MusicPlayer.jsx:24-33 | A stored loop or shuffle preference, false when nothing is stored. |
| Storage.WriteThenRead | client/src/components/MusicPlayer.jsx:246-262 | Each read returns what the matching write stored, and a write under one key leaves the reads under the other keys unchanged. |
| Tracks.Reconciled | client/src/components/SoundGrid.jsx:21-36 | The element volume becomes `volume × masterVolume`. The sound then plays iff that product is positive and play is on. play()/pause() is counted only when the playing flag flips. Identity, source, loop and position are kept. |
| Tracks.SettledIsFixpoint | client/src/components/SoundGrid.jsx:25-36 | A sound already in the reconciled state is left exactly as it is, with no play/pause call. |
| Tracks.ReconcileIdempotent | client/src/components/SoundGrid.jsx:20-38 | Reconciling twice with the same inputs equals reconciling once. |
| Tracks.VolumeChanged | client/src/components/SoundGrid.jsx:75-86 | The raw value becomes the sound's volume. The element gets `value × master`. The sound plays iff that is positive and play is on. Exactly one play() or pause() call is made. Id, name and origin are kept. |
| Tracks.Silenced | client/src/components/SoundGrid.jsx:49-61 | The reset of one sound: volume 0, not playing, element paused. The result is settled for every play switch and master volume. |
| Tracks.EffectivePositive | client/src/components/MusicPlayer.jsx:72 | For non-negative volumes, `volume × master > 0` iff both are positive. This ties the music player's condition to the grid's. |
| Shuffle.Pick | client/src/util/arrayShuffle.js:7 | `floor(r × (i+1))` with `r` in [0,1) lies in [0, i]. |
| Shuffle.ChoicesOf | client/src/util/arrayShuffle.js:5-7 | Any sequence of random draws in [0,1) yields a valid index oracle of the same length. |
| Shuffle.Swap | client/src/util/arrayShuffle.js:10 | The destructuring swap exchanges positions i and j and leaves every other position as it was. |
| Shuffle.SwapPermutes | client/src/util/arrayShuffle.js:10 | A swap preserves the multiset. |
| Shuffle.ShuffleFrom | client/src/util/arrayShuffle.js:5-11 | The swap loop from iteration i down to 1, as a reference definition. It keeps the length; its multiset and untouched positions are proved by the two lemmas below. |
| Shuffle.Shuffled | client/src/util/arrayShuffle.js:2-13 | What the shuffle returns for the given draws, as a reference definition. It has the input's length. |
| Shuffle.ShuffleFromPermutes | client/src/util/arrayShuffle.js:5-11 | The swap loop from i down to 1 keeps the length and the multiset. |
| Shuffle.ShuffleFromKeepsAbove | client/src/util/arrayShuffle.js:5-10 | The swap loop from i downward never writes a position above i. |
| Shuffle.ShuffledIsPermutation | client/src/util/arrayShuffle.js:2-13 | The shuffled sequence has the input's length and multiset. |
| Shuffle.ShortInputUnchanged | client/src/util/arrayShuffle.js:5 | An input of length 0 or 1 comes back equal. |
| Shuffle.ArrayShuffle | client/src/util/arrayShuffle.js:2-13 | The copy-and-swap array loop returns exactly `Shuffled(input, js)`, a permutation of the input of the same length. The input itself is a value and is untouched. |
| Playlist.FindIndex | client/src/components/MusicPlayer.jsx:162-163 | `findIndex` by id: the first position with that id, or none when no song has it. |
| Playlist.FindIndexOfUnique | client/src/components/MusicPlayer.jsx:162 | With distinct ids, looking up the id at position k finds k. |
| Playlist.NextIndex | client/src/components/MusicPlayer.jsx:165 | `(i+1) mod n` stays in bounds and wraps from the last index to 0. |
| Playlist.PrevIndex | client/src/components/MusicPlayer.jsx:182 | `(i-1+n) mod n` stays in bounds and wraps from 0 to the last index. |
| Playlist.IndexRoundTrip | client/src/components/MusicPlayer.jsx:165-182 | Prev after next, and next after prev, return to the index. |
| Playlist.Neighbour | client/src/components/MainPlayer.jsx:141-168 | There is a neighbour exactly when there is an active song whose id is listed. It is the song at `(k+1) mod n` going forward, or `(k-1+n) mod n` going back, where k is the first position holding the active id. |
| Playlist.Loaded | client/src/components/MusicPlayer.jsx:118-124 | The shared element takes the song's url and the record's volume. Loading the new source puts it at position 0, paused. play() is called once, and the element plays, exactly when the record carries playing over. The loop flag and the pause count are kept. |
| Playlist.Carried | client/src/components/MusicPlayer.jsx:108-135 | The loaded song shows the song's id, name and author. Its volume is the stored music volume, else the previous song's, else 0. It plays iff the previous song played. |
| Playlist.CarryOverKeepsSettings | client/src/components/MusicPlayer.jsx:111-123 | Loading a second song keeps the first one's volume and playing state. |
| Playlist.NeighbourRoundTrip | client/src/components/MainPlayer.jsx:141-168 | With distinct ids, the neighbour always exists. Prev after next, and next after prev, come back to the song at k. |
| Playlist.ActiveRoundTrip | client/src/components/MusicPlayer.jsx:153-184 | With distinct ids, a volume consistent with the store, and an active record for song k, prev after next rebuilds the same active record, and so does next after prev. |
| Music.Activate | client/src/components/MusicPlayer.jsx:108-135 | setNewActiveSong on a deck. Queue and history are kept, and the active record is `Carried` for the song. The element holds the song's url at the carried volume from position 0. It plays exactly when the previous song was playing. |
| Music.NextShuffled | client/src/components/MusicPlayer.jsx:187-207 | No active song: no change. Non-empty queue: the head moves to the end of the history and becomes active, and history ++ queue is unchanged. Empty queue: history ++ queue is the new shuffle of the playlist with a history of one, a permutation of the songs. Whenever a song becomes active, the shared element is `Loaded` with it. |
| Music.PrevShuffled | client/src/components/MusicPlayer.jsx:210-229 | A history of at most one song means no change. Otherwise the current song moves from the end of the history to the front of the queue, the new last history song becomes active and is `Loaded` into the shared element, and history ++ queue is unchanged. |
| Music.Next | client/src/components/MusicPlayer.jsx:153-167 | No active song, or an empty list: no change. With shuffle on, this is `NextShuffled`. With shuffle off, the forward neighbour becomes the `Carried` record and is `Loaded` into the shared element; nothing happens when the id is not listed. Queue and history are untouched. |
| Music.Prev | client/src/components/MusicPlayer.jsx:170-184 | The same as `Next`, backward, through `PrevShuffled`: the backward neighbour becomes active and is `Loaded` into the element. |
| Music.SongEnded | client/src/components/MusicPlayer.jsx:138-150 | With loop on or fewer than two songs, the same song restarts: the element is the old one at position 0 with play() called once, and nothing else changes. Otherwise the result equals `Next`. |
| Music.Initialised | client/src/components/MusicPlayer.jsx:46-59 | An empty list changes nothing. With shuffle off, the first song becomes active. With shuffle on, the deck is a fresh cycle: history ++ queue is the shuffled playlist, with one history song, which is active. In both cases the active song is `Loaded` into the shared element. |
| Music.LoadMatchesReshuffle | client/src/components/MusicPlayer.jsx:49-54 | The initial load with shuffle on builds the same deck as a reshuffle in nextShuffle. |
| Music.AdvanceThroughQueue | client/src/components/MusicPlayer.jsx:201-206 | Within a cycle, k presses of next move the first k queued songs, in order, onto the history. |
| Music.ShuffleCycleCoversPlaylist | client/src/components/MusicPlayer.jsx:187-207 | The shuffle bag: start from an empty queue and press next n times, n being the playlist length. The queue is then empty, and the history is a permutation of the playlist. |
| Music.ShuffleRoundTrip | client/src/components/MusicPlayer.jsx:187-229 | Within a cycle, prevShuffle undoes nextShuffle on the queue, the history and the active record. |
| Music.NextPrevRoundTrip | client/src/components/MusicPlayer.jsx:153-184 | With shuffle off and distinct ids, prevSong after nextSong restores the active record, queue and history. |
| Music.Without | client/src/components/MusicPlayer.jsx:266 | The id filter never grows the list. |
| Music.WithoutMembers | client/src/components/MusicPlayer.jsx:266 | The filter keeps exactly the songs with another id. |
| Music.Remaining | client/src/components/MusicPlayer.jsx:266 | The songs the queue is built from: every listed song except those with the active id. |
| Music.WithoutAbsent | client/src/components/MusicPlayer.jsx:266 | Filtering out an id that no song has returns the list unchanged. |
| Music.WithoutPresent | client/src/components/MusicPlayer.jsx:266 | With distinct ids, filtering out song k's id removes exactly song k from the multiset. |
| Music.HistorySeed | client/src/components/MusicPlayer.jsx:268 | The history that enabling shuffle should start from: the playlist entry with the active id. It is empty iff there is no active song or its id is not listed. |
| Music.HistorySeedAsWritten | client/src/components/MusicPlayer.jsx:268 | The history as the code builds it: the active record itself, which has no url. |
| Music.ToggleShuffleKeepsPlaylist | client/src/components/MusicPlayer.jsx:264-268 | With distinct ids, enabling shuffle splits the playlist between history and queue: history ++ queue is a permutation of the songs. |
| Music.HistorySeedAsWrittenLosesSource | client/src/components/MusicPlayer.jsx:268 | With the code's history seed, nextShuffle then prevShuffle loads no source into the element. The corrected seed reloads the song's url. |
| Music.MusicPlayer.constructor | client/src/components/MusicPlayer.jsx:19-38 | Loop and shuffle are read from the store (false when absent). There is no active song, the queue and history are empty, and the element is fresh. |
| Music.MusicPlayer.LoadSongs | client/src/components/MusicPlayer.jsx:46-59 | The new list is kept, and the state becomes `Initialised` of the old state. |
| Music.MusicPlayer.SetNewActiveSong | client/src/components/MusicPlayer.jsx:108-135 | The state becomes `Activate`: the `Carried` record, with the song's url and the carried volume loaded into the shared element, and play() called iff the record is playing. |
| Music.MusicPlayer.PlayPause | client/src/components/MusicPlayer.jsx:69-79 | No active song: nothing. Otherwise the song plays iff play is on and `volume × master > 0`, with play() or pause() called accordingly. |
| Music.MusicPlayer.ApplyMasterVolume | client/src/components/MusicPlayer.jsx:82-86 | The element volume becomes the song's volume times the master volume. Nothing happens without an active song. |
| Music.MusicPlayer.ResetVolume | client/src/components/MusicPlayer.jsx:89-105 | With an active song, its volume, the element volume and the stored music volume become 0. Otherwise nothing changes. |
| Music.MusicPlayer.HandleSongEnd | client/src/components/MusicPlayer.jsx:138-150 | The state becomes `SongEnded` of the current state. |
| Music.MusicPlayer.NextSong | client/src/components/MusicPlayer.jsx:153-167 | The state becomes `Next` of the current state. |
| Music.MusicPlayer.PrevSong | client/src/components/MusicPlayer.jsx:170-184 | The state becomes `Prev` of the current state. |
| Music.MusicPlayer.NextShuffle | client/src/components/MusicPlayer.jsx:187-207 | The state becomes `NextShuffled` of the current state. |
| Music.MusicPlayer.PrevShuffle | client/src/components/MusicPlayer.jsx:210-229 | The state becomes `PrevShuffled` of the current state. |
| Music.MusicPlayer.MusicVolumeChange | client/src/components/MusicPlayer.jsx:232-247 | No active song: nothing changes. Otherwise the raw value goes to the song and to the store, and the element gets `value × master`. |
| Music.MusicPlayer.ToggleLoop | client/src/components/MusicPlayer.jsx:250-256 | The flag flips, and the store holds the new flag under the loop key. |
| Music.MusicPlayer.ToggleShuffle | client/src/components/MusicPlayer.jsx:259-274 | The flag flips and is stored. When enabled, the queue is the shuffle of the songs without the active id. The history is the corrected seed: the playlist's own entry for the active song (see Findings). With distinct ids, history ++ queue is then a permutation of the playlist. When disabled, both are empty. |
| Grid.Ids | client/src/components/SoundGrid.jsx:65-67 | The ids the reset writes: every sound's id, and nothing else. |
| Grid.ZeroStoredVolumes | client/src/components/SoundGrid.jsx:64-67 | Every sound id maps to 0. Keys for other ids keep their values, and no other key appears. |
| Grid.SoundGrid.constructor | client/src/components/SoundGrid.jsx:10 | The grid holds the given sounds and store. |
| Grid.SoundGrid.Reconcile | client/src/components/SoundGrid.jsx:20-38 | Every sound is replaced by `Reconciled` of itself, in place. All sounds end settled. When all were already settled, nothing changes and no call is made. |
| Grid.SoundGrid.ResetVolumes | client/src/components/SoundGrid.jsx:41-70 | While the counter is 0, nothing changes. Otherwise every sound is silenced and paused, and the stored volume object is zeroed for every sound id with other keys kept. No other store key changes. |
| Grid.SoundGrid.SoundVolumeChange | client/src/components/SoundGrid.jsx:73-93 | Only the sound at `index` changes, to `VolumeChanged`. The stored object is the old one updated at that sound's id with the raw value. |
| EarlyPlayer.StartVolume | client/src/components/MainPlayer.jsx:31-32 | A sound starts at the stored volume for its id, or 0 when none is stored. |
| EarlyPlayer.LocalSound | client/src/components/MainPlayer.jsx:29-37 | A bundled sound keeps its id, name, origin and element. It is marked not playing, and the sound and its element take the start volume, with the element set to loop. |
| EarlyPlayer.UserSound | client/src/components/MainPlayer.jsx:40-57 | A user sound is not local and not playing, at the start volume. It gets a fresh element on its url: looping at that volume, at position 0, paused, with no calls made. |
| EarlyPlayer.Catalog | client/src/components/MainPlayer.jsx:25-60 | The user sounds come first (not local, each with its own fresh element on its url), then the bundled ones, each group in order. Every sound starts not playing, its element looping at the sound's volume. That volume is the stored value for its id, or 0. |
| EarlyPlayer.SyncEarly | client/src/components/MainPlayer.jsx:84-94 | A sound whose element volume is positive ends with its playing flag equal to play. Other sounds are untouched. A call is counted only when the flag flips, and a synchronised sound is a fixpoint. |
| EarlyPlayer.SyncEarlyIsReconcileAtFullMaster | client/src/components/MainPlayer.jsx:84-94 | On a consistent sound, the early play effect equals the grid's reconciliation with master volume 1. |
| EarlyPlayer.MainPlayer.constructor | client/src/components/MainPlayer.jsx:10-15 | Play is off, there are no sounds, songs or active song, and the element is fresh. |
| EarlyPlayer.MainPlayer.Mount | client/src/components/MainPlayer.jsx:21-64 | The sounds become the `Catalog` from the stored volumes, and the songs become the fetched list. |
| EarlyPlayer.MainPlayer.NewActiveSong | client/src/components/MainPlayer.jsx:114-138 | The active record becomes `Carried`, and the shared element is `Loaded` with the song. |
| EarlyPlayer.MainPlayer.FirstSong | client/src/components/MainPlayer.jsx:67-71 | With songs, the first song is loaded as with `NewActiveSong`. With none, nothing changes. |
| EarlyPlayer.MainPlayer.TogglePlay | client/src/components/MainPlayer.jsx:109-111 | The play switch flips. |
| EarlyPlayer.MainPlayer.Reconcile | client/src/components/MainPlayer.jsx:82-106 | Every sound becomes `SyncEarly` of itself, in place, and all end synchronised. The active song follows the switch only when its volume is positive, with one call only on a flip. |
| EarlyPlayer.MainPlayer.NextSong | client/src/components/MainPlayer.jsx:141-153 | No forward neighbour: nothing changes. Otherwise the neighbour is loaded with the carried volume and playing state. |
| EarlyPlayer.MainPlayer.PrevSong | client/src/components/MainPlayer.jsx:156-168 | The same, backward. |
| EarlyPlayer.MainPlayer.SoundVolumeChange | client/src/components/MainPlayer.jsx:171-191 | Only the sound at `index` changes. The result equals the grid's `VolumeChanged` with master volume 1, so the sound plays iff `value > 0` and play is on. Only its id is rewritten in the stored object. |
| EarlyPlayer.MainPlayer.MusicVolumeChange | client/src/components/MainPlayer.jsx:194-209 | No active song: nothing changes. Otherwise the song, the element and the store take the value, and every song loaded afterwards starts at it. |

## Left out

- React scheduling is not modelled. Each handler is one atomic transition that
  reads the current state, so batching and stale closures are out. The
  `onended` binding effects (MusicPlayer.jsx:62-66, MainPlayer.jsx:73-78) are
  represented only by `HandleSongEnd`, `NextSong` and `PrevSong` being callable
  on the current state.
- Audio decoding and playback are not modelled. The element is a record, and
  the counters stand for the calls.
- Floating point is not modelled. Volumes are `real`, so IEEE rounding of the
  volume products is out.
- localStorage encoding and `JSON.parse` are not modelled. A value of the wrong
  shape under a key is treated like an absent key.
- The uniformity of the shuffle is not modelled. It is a statistical property.
  The model proves which permutation a given sequence of draws yields, and that
  the result is a permutation.
- Shuffle.ArrayShuffle takes the input as a value. That the caller's array is
  left untouched is therefore true by construction and is not a separate
  proof.
- Music.NextShuffled and Music.MusicPlayer.NextShuffle require a non-empty
  playlist. Their only caller, nextSong, returns first when the list is empty.
  With an empty list the handler would call setNewActiveSong with an undefined
  song, which throws a TypeError when reading its url (MusicPlayer.jsx:119).
  That error path is not modelled.
- Music.MusicPlayer.ToggleShuffle uses the corrected history seed
  (`Music.HistorySeed`), not the active-song record that MusicPlayer.jsx:268
  puts into the history. So the method does not reproduce the lost source
  described under Findings. `Music.HistorySeedAsWritten` models the code as
  written.
- Aliasing is not modelled. The bundled sound entries' audio objects are shared
  across mounts, and the active-song record points at the shared element. The
  model treats both as values, so in-place sharing between two records is not
  captured.
- The forms and the user/auth context are not modelled. The empty-playlist
  message, the hide flags and the render trees are also out.
- The playlist-switch rule:
  - When the list changes, the code activates `songs[0]` (or the shuffle's first
    song).
  - It does not look the previously active song up by id.
  - The model follows the code.
- The bundled sound data in `client/data/localData.js` has no `audio` member,
  but MainPlayer.jsx:34 uses one. The model takes the bundled sounds as full
  sound records that carry an element.
- Ids are strings. Both the server's numeric ids and the bundled string ids are
  compared only for equality.
- Header.jsx and App.jsx are not part of this model. The reset counter they
  increment is an input to `ResetVolumes`.

## Findings

| source | as written | input that shows it | evidently intended | confidence | as-written member | corrected member |
|---|---|---|---|---|---|---|
| client/src/components/MusicPlayer.jsx:268 | Enabling shuffle puts the active-song record into the history. That record is built at lines 127-134 and has no `url`. | A playlist with two songs of distinct ids, song A active. Enable shuffle, press next, then press prev. prevShuffle loads the record back and sets the element's source to undefined. | The history starts with the playlist's own entry for the active song, so going back reloads its url. | not executed | Music.HistorySeedAsWritten, Music.HistorySeedAsWrittenLosesSource | Music.HistorySeed, Music.ToggleShuffleKeepsPlaylist, Music.MusicPlayer.ToggleShuffle |
