# Snippet playback and track rotation of the music-guessing game

This project models the core of a music-guessing game. The game loads a pool of tracks for an artist, or for the
iTunes top-songs chart. It serves one random unplayed track at a time and plays a short snippet of its preview,
starting at a random offset. The player then types a guess, helped by autocomplete suggestions drawn from the pool,
and the guess is checked against the title. The Dafny modules follow the source files:

- `Rotation` is the rotation both track hooks share. It draws from the tracks not played yet, and clears the played
  set and draws from the whole pool once every track has been served. It is a `Sampler` class over the pool and the
  played set, specified by the functions `DrawFrom` and `DrawSeq`.
- `ITunesApi` models the catalog queries of the iTunes utilities. These are the artist search, the artist's songs
  and the chart feed with its conversion to songs. It also models the popular-artists fallback, with its in-place
  Fisher-Yates shuffle on an `array`. The HTTP answers are parameters.
- `ITunesHook` models the iTunes track hook. A `TrackFeed` class holds the hook's state and a `Sampler`.
- `SpotifyHook` models the Spotify track hook. It covers the album paging loop, the 20-id chunking loop, the
  main-artist filters and the id de-duplication through a JavaScript `Map`. A `TrackFeed` class holds the hook's
  state.
- `ITunesPlayer` is the direct-audio snippet player, as a `DirectPlayer` class. Media events, timer expiries and
  the settlement of `play()` promises are event methods. What the player does to the audio element, and what it
  reports to the page, are recorded as output sequences.
- `SnippetPlayer` is the embedded Spotify snippet player, as an `EmbedPlayer` class. It covers window messages,
  iframe loads, the init, check, play-step and auto-pause timers, and the commands posted to the embed.
- `GamePage` models the page:
  - the difficulty and artist-id URL parameters;
  - the guess check and the score;
  - the suggestion list;
  - the round state under the page's handlers and keyboard shortcuts, as a `Round` class.
- `JsNumber` models JavaScript `parseInt` without a radix. The page reads the artist id with it, and the chart
  conversion reads track ids with it.
- `Text`, `Seqs`, `Wrappers` and `Signals` are shared helpers. `Text` covers trimming, ASCII lower-casing,
  substring search, splitting and decimal rendering. `Signals` holds the three callbacks a player makes to the page
  (ready, started, ended).

`Math.random()` values are parameters `r` with `0 <= r < 1`. The shuffle takes them as a stream `rnd`. Timers
are modelled as counts of pending callbacks, or as a map of armed timer ids, and each expiry is a method the
environment calls.

Some behaviour of the source is modelled as written, even though it is not a bug in a function:
- a `difficulty` parameter that names no level and no inherited object property leaves the snippet length undefined and turns the score into NaN (`None`);
- a skip with no current track reports the title "undefined";
- a fetch call of a hook that sees an empty pool only loads the pool, and reports nothing drawn until the next call;
- an empty Spotify catalog is stored as a new empty array (src/hooks/useSpotify.ts:147-151), which re-creates `fetchTrack`, so the fetch effect repeats the search, paging and chunking until a request fails. Each repetition is one more `SpotifyHook.TrackFeed.FetchTrack` call that ends with the "no tracks" error and an empty pool.

## Model

| member | source | states |
|---|---|---|
| Rotation.Pick | src/hooks/useITunes.ts:88 | `Math.floor(Math.random() * n)` is a valid index below n |
| Rotation.Unplayed | src/hooks/useITunes.ts:74 | exactly the pool tracks whose id is not played; empty iff every id of the pool is played |
| Rotation.DrawFrom | src/hooks/useITunes.ts:73-99 | for any played set, including one holding ids of an earlier pool: the served track is in the pool; while unplayed ids of the pool remain it is an unplayed one and the played set grows by its id; once all are played the played set restarts as just its id |
| Rotation.NoRepeatBeforeExhaustion | src/hooks/useITunes.ts:73-99 | from any played set, as long as unplayed ids of the pool remain, consecutive draws serve pairwise different ids, none of them already played |
| Rotation.FullRotation | src/hooks/useITunes.ts:73-99 | from a played set holding none of the pool's ids (empty, or left over from another pool), as many draws as the pool has tracks serve a permutation of the pool and add every id of the pool to the played set |
| Rotation.FreshRunCoversPool | src/hooks/useSpotify.ts:154-179 | a run of fresh draws as long as a pool with distinct ids is a permutation of that pool, and adds exactly the pool's ids to the played set |
| Rotation.IdsCard | src/hooks/useSpotify.ts:147-149 | a pool with pairwise different ids has as many ids as tracks |
| Rotation.Sampler.Draw | src/hooks/useITunes.ts:73-99 | the served track and the new played set are exactly `DrawFrom` of the old state; the pool is unchanged |
| Rotation.Sampler.Load | src/hooks/useITunes.ts:70 | the pool becomes the loaded tracks and the played set is kept, whatever it holds |
| Rotation.Sampler.Reset | src/hooks/useITunes.ts:109-112 | the played set and the pool are both emptied |
| Rotation.Sampler.ClearPlayed | src/hooks/useSpotify.ts:192-194 | the played set is emptied and the pool kept |
| Rotation.Sampler.DropPool | src/hooks/useITunes.ts:111 | the pool is emptied and the played set kept |
| ITunesApi.SearchArtists | src/utils/itunesApi.ts:59-79 | a blank query gives no artists; otherwise the answer's results, or none when the request failed |
| ITunesApi.ArtistSongs | src/utils/itunesApi.ts:84-103 | exactly the results whose kind is song, each with its multiplicity in the response, or none when the request failed |
| ITunesApi.FallbackSongs | src/utils/itunesApi.ts:163-183 | every song of the fallback is a song with a preview |
| ITunesApi.FallbackSongsMembership | src/utils/itunesApi.ts:163-183 | a song is in the flattened results exactly when it is a song with a preview in the answer of some artist's request that succeeded |
| ITunesApi.SwapPermutes | src/utils/itunesApi.ts:188-191 | a swap exchanges the two positions, keeps the others and keeps the multiset |
| ITunesApi.FisherYatesPermutes | src/utils/itunesApi.ts:188-191 | the Fisher-Yates passes keep the length and the multiset of elements |
| ITunesApi.Shuffle | src/utils/itunesApi.ts:188-191 | the array ends as the Fisher-Yates shuffle of its old contents, a permutation of them |
| ITunesApi.GetPopularArtistsSongs | src/utils/itunesApi.ts:152-194 | at most 50 songs, all with a preview, drawn from the artists' results; exactly 50 when there are that many, all of them when fewer |
| ITunesApi.FindAudioEnclosure | src/utils/itunesApi.ts:204-206 | the first link with rel "enclosure" and an audio type, or none when no link is one |
| ITunesApi.PreviewUrl | src/utils/itunesApi.ts:201-214 | the audio enclosure's href when there is one, else the im:preview href; empty iff neither exists |
| ITunesApi.PreviewUrlSource | src/utils/itunesApi.ts:201-214 | a non-empty preview URL comes from an audio enclosure link of the entry or from its im:preview href |
| ITunesApi.LabelOr | src/utils/itunesApi.ts:222-226 | a present non-empty label is kept; a missing or empty one is replaced by the fallback text |
| ITunesApi.ConvertFeedEntry | src/utils/itunesApi.ts:199-248 | a 30-second single-track song whose preview is `PreviewUrl`, streamable iff that is non-empty; a missing or empty title, artist or album label becomes "Unknown Track", "Unknown Artist" or "Unknown Album", a present one is kept; a missing or empty id reads as 0 |
| ITunesApi.ConvertedTrackId | src/utils/itunesApi.ts:221 | a decimal id label is read back as that id |
| ITunesApi.NonNumericIdsCollide | src/utils/itunesApi.ts:221 | an id label starting with neither white space, a sign nor a digit reads as NaN, so all such songs share one track id |
| ITunesApi.GetChartSongs | src/utils/itunesApi.ts:108-147 | with a non-empty feed, exactly the converted entries that have a preview, each as often as it converts; otherwise at most 50 songs drawn from `FallbackSongs`, exactly 50 when there are that many and all of them when fewer; every song has a preview |
| ITunesApi.ConvertAllMembership | src/utils/itunesApi.ts:137 | a song is among the converted entries exactly when it is the conversion of one of them |
| ITunesHook.ShouldFetchIffNonNegative | src/hooks/useITunes.ts:26-29 | the hook fetches exactly for a present id that is 0 (the chart) or positive |
| ITunesHook.DisplayName | src/hooks/useITunes.ts:35 | the given artist name when non-empty, else "Top Charts" in chart mode and "Unknown Artist" otherwise; never empty |
| ITunesHook.LoadPool | src/hooks/useITunes.ts:38-71 | every song of a loaded pool has a preview |
| ITunesHook.LoadPoolOutcomes | src/hooks/useITunes.ts:38-71 | chart songs in chart mode or when the artist has none; "No tracks" iff that source is empty; "No playable tracks" iff none has a preview; otherwise non-empty, keeping every copy of each song of that source that has a preview and nothing else |
| ITunesHook.TrackFeed.FetchTrack | src/hooks/useITunes.ts:25-106 | idle without a valid id; with an empty pool it loads `LoadPool` or reports its error and draws nothing; with a pool it serves `DrawFrom` with the display name and pool size; loading ends false; pool tracks always have a preview |
| ITunesHook.TrackFeed.ChangeArtist | src/hooks/useITunes.ts:106-117 | the same id keeps the rotation; a new id clears the played set, then the fetch of the same commit runs with the pool of the render: a loaded pool serves `DrawFrom` of it, from nothing played, under the new display name, and the pool is then emptied; an empty pool loads `LoadPool` for the new id; an id that does not fetch leaves both empty |
| ITunesHook.TrackFeed.ChangeArtistIntended | src/hooks/useITunes.ts:109-117 | corrected: the fetch after the reset sees the emptied pool, so it loads `LoadPool` for the new id and the played set stays empty |
| ITunesHook.StaleArtistScenario | src/hooks/useITunes.ts:106-117 | artist 1 with song a, artist 2 falling back to chart songs a and b: after the switch a is published under artist 2's name, and artist 2's first draw must serve b |
| ITunesHook.StaleArtistIntendedScenario | src/hooks/useITunes.ts:109-117 | with the corrected change the same steps keep artist 1's display and leave artist 2's pool loaded with nothing played |
| SpotifyHook.PageOffsets | src/hooks/useSpotify.ts:61-86 | offsets 0, 50, 100, ..., one more than the number of full pages |
| SpotifyHook.FetchArtistAlbums | src/hooks/useSpotify.ts:60-91 | the paging loop requests exactly `PageOffsets` and returns the ids of the kept albums (all, or those led by the artist in main-albums mode), in listing order |
| SpotifyHook.ChunksPartition | src/hooks/useSpotify.ts:93-111 | the chunks concatenate back to the id list, each holds 1 to 20 ids, all but the last hold 20, and there are ceil(n/20) of them |
| SpotifyHook.FetchAlbumsWithTracks | src/hooks/useSpotify.ts:93-111 | the loop requests exactly `Chunks` of the ids and returns the answers concatenated in chunk order |
| SpotifyHook.AlbumTracks | src/hooks/useSpotify.ts:127-138 | an album's tracks in order, each tagged with the album's id |
| SpotifyHook.MainTracks | src/hooks/useSpotify.ts:141-145 | in main-albums mode exactly the tracks led by the artist; otherwise all tracks |
| SpotifyHook.FirstWith | src/hooks/useSpotify.ts:147-149 | the first position holding a given id, or none when no track has it |
| SpotifyHook.LastWith | src/hooks/useSpotify.ts:147-149 | the last position holding a given id, or none when no track has it |
| SpotifyHook.EntriesBuilt | src/hooks/useSpotify.ts:147-149 | the `Map` built track by track holds each id once, keyed in order of first occurrence, with the last track of that id as value |
| SpotifyHook.ValuesOrder | src/hooks/useSpotify.ts:147-149 | the map's values list ids in the order of their first occurrence in the input |
| SpotifyHook.Dedup | src/hooks/useSpotify.ts:147-149 | one track per id, every input id represented, each by the last track with that id, in first-occurrence order |
| SpotifyHook.TrackFeed.FetchTrack | src/hooks/useSpotify.ts:54-190 | idle without token and artist name; a raised error is reported; with an empty pool it loads `CatalogTracks` and, still seeing the empty pool, reports that no tracks were found; with a pool it serves `DrawFrom`; ids stay distinct |
| SpotifyHook.TrackFeed.ChangeArtist | src/hooks/useSpotify.ts:192-194 | a new artist name clears only the played set; the pool of the previous artist is kept |
| SpotifyHook.TrackFeed.ChangeArtistIntended | src/hooks/useITunes.ts:109-112 | a new artist name clears the played set and the pool, as the iTunes hook does |
| SpotifyHook.StaleCatalogScenario | src/hooks/useSpotify.ts:192-194 | after an artist change the next call serves a track of the previous pool |
| SpotifyHook.StaleCatalogIntendedScenario | src/hooks/useSpotify.ts:122-152 | with the intended reset, the next call after an artist change loads the new artist's catalog |
| SpotifyHook.CatalogPoolRotates | src/hooks/useSpotify.ts:147-179 | a loaded catalog pool satisfies the full-rotation theorem: |pool| draws serve a permutation of it |
| ITunesPlayer.CacheBusted | src/components/ITunesPlayer.tsx:85 | the URL, then `&` if it already has a query and `?` otherwise, then `_=` and the decimal digits that read back as the timestamp |
| ITunesPlayer.StartOffsetMs | src/components/ITunesPlayer.tsx:121-123 | the random start offset is below 25000 ms |
| ITunesPlayer.PlaysFollowSeeksAppend | src/components/ITunesPlayer.tsx:121-128 | appending command runs that do not begin with play keeps "every play directly follows a seek below 25 s" |
| ITunesPlayer.DirectPlayer.constructor | src/components/ITunesPlayer.tsx:25-62 | mount: not ready, not playing, watchdog armed, and the cache-busted source loaded when the URL is non-empty |
| ITunesPlayer.DirectPlayer.ChangePreviewUrl | src/components/ITunesPlayer.tsx:80-92 | a new non-empty URL makes the player not ready and loads its cache-busted source; otherwise nothing changes |
| ITunesPlayer.DirectPlayer.CanPlayThrough | src/components/ITunesPlayer.tsx:32-36 | the player becomes ready and reports it; playback unchanged |
| ITunesPlayer.DirectPlayer.MediaError | src/components/ITunesPlayer.tsx:44-49 | a media error also makes the player ready and reports it |
| ITunesPlayer.DirectPlayer.WatchdogFires | src/components/ITunesPlayer.tsx:56-62 | the 5 s watchdog always forces readiness |
| ITunesPlayer.DirectPlayer.AudioEnded | src/components/ITunesPlayer.tsx:38-42 | not playing, and the page is told playback ended |
| ITunesPlayer.DirectPlayer.Toggle | src/components/ITunesPlayer.tsx:94-126 | not ready: nothing; playing: the referenced timer cleared, pause, ended reported; otherwise a seek to `StartOffsetMs(r)` then play, with one more promise pending |
| ITunesPlayer.DirectPlayer.PlayResolved | src/components/ITunesPlayer.tsx:128-145 | playing, started reported, and one fresh auto-stop timer of `duration` ms armed and referenced |
| ITunesPlayer.DirectPlayer.PlayRejected | src/components/ITunesPlayer.tsx:146-149 | not playing and no timer armed |
| ITunesPlayer.DirectPlayer.AutoStopFires | src/components/ITunesPlayer.tsx:134-144 | the audio is paused, the timer removed and ended reported |
| ITunesPlayer.DirectPlayer.Click | src/components/ITunesPlayer.tsx:158-169 | ready: the toggle's outcome (playing: pause, timer cleared, ended reported; else a seek and a pending play); not ready: only a 500 ms callback is scheduled; nothing else changes |
| ITunesPlayer.DirectPlayer.ClickTimerFires | src/components/ITunesPlayer.tsx:161-165 | as written: readiness forced and reported, but no command issued and playback unchanged |
| ITunesPlayer.DirectPlayer.ClickTimerFiresIntended | src/components/ITunesPlayer.tsx:161-165 | corrected: readiness forced, then the toggle runs as for a ready player and starts (or stops) playback |
| ITunesPlayer.DirectPlayer.Unmount | src/components/ITunesPlayer.tsx:64-76 | the audio is paused and emptied, and the watchdog and the referenced timer cleared; the playing flag and the other timers are left as they were |
| ITunesPlayer.ClickWhileLoadingScenario | src/components/ITunesPlayer.tsx:158-169 | a click while loading, then its callback: ready, but `play()` is never issued |
| ITunesPlayer.ClickWhileLoadingIntendedScenario | src/components/ITunesPlayer.tsx:158-169 | with the corrected callback the same click ends in a seek and a play |
| ITunesPlayer.DoubleStartScenario | src/components/ITunesPlayer.tsx:94-145 | two toggles before the first play settles leave an armed auto-stop timer that pausing does not clear |
| SnippetPlayer.TrackIdOf | src/components/SnippetPlayer.tsx:26 | the third colon-separated field of the URI, which contains no colon |
| SnippetPlayer.TrackIdOfSpotifyUri | src/components/SnippetPlayer.tsx:26 | `spotify:track:<id>` yields exactly `<id>` |
| SnippetPlayer.EmbedUrl | src/components/SnippetPlayer.tsx:217 | the embed prefix, the track id (or "undefined") and the generator suffix, in that layout |
| SnippetPlayer.UpdatedPlaying | src/components/SnippetPlayer.tsx:80-93 | the nested `data.isPlaying` when boolean, else the top-level `isPlaying`, else the current state |
| SnippetPlayer.EmbedPlayer.constructor | src/components/SnippetPlayer.tsx:51-123 | mount: source from `EmbedUrl`, not ready, no init attempt, watchdog and init timer armed |
| SnippetPlayer.EmbedPlayer.ReadinessChanged | src/components/SnippetPlayer.tsx:60-123 | the effect re-runs: the referenced timer is cleared; a watchdog is kept only while not ready; the init timer is re-armed |
| SnippetPlayer.EmbedPlayer.ChangeTrackUri | src/components/SnippetPlayer.tsx:51-58 | a new URI becomes the source; a new non-empty URI resets readiness, playing and the init attempt and installs the reload handler, and leaving readiness re-arms the watchdog and init timer and clears the referenced auto-pause timer; an unchanged URI changes nothing |
| SnippetPlayer.EmbedPlayer.ResetForTrack | src/components/SnippetPlayer.tsx:52-57 | not ready, not playing, no init attempt, reload handler installed; a player that was ready gets the effect re-run (watchdog and init timer re-armed, referenced auto-pause timer cleared), one that was not keeps its timers |
| SnippetPlayer.EmbedPlayer.IframeLoaded | src/components/SnippetPlayer.tsx:223-237 | one initialisation scheduled, plus the reload handler's when installed; nothing else changes |
| SnippetPlayer.EmbedPlayer.LoadInitFires | src/components/SnippetPlayer.tsx:226-236 | posts `initialize` and records the attempt; nothing else changes |
| SnippetPlayer.EmbedPlayer.InitTimerFires | src/components/SnippetPlayer.tsx:107-113 | posts `initialize` only when no attempt was made, and records one; nothing else changes |
| SnippetPlayer.EmbedPlayer.WatchdogFires | src/components/SnippetPlayer.tsx:61-67 | forces readiness and reports it; the effect re-run re-arms the init timer and clears the referenced auto-pause timer |
| SnippetPlayer.EmbedPlayer.HandleMessage | src/components/SnippetPlayer.tsx:69-103 | other origins and non-objects change nothing; `ready` makes the player ready, reports `Ready` and cancels the watchdog; `playback_update` takes `UpdatedPlaying` and makes the player ready, reporting `Ready` only if it was not; other messages leave playing unchanged; the init timer is re-armed and the referenced auto-pause timer cleared exactly when readiness flips |
| SnippetPlayer.EmbedPlayer.Toggle | src/components/SnippetPlayer.tsx:125-193 | not ready: nothing; playing: timer cleared, `pause` posted, ended reported; otherwise `initialize` with a scheduled check when no attempt was made, else `ready_check` with a scheduled play step |
| SnippetPlayer.EmbedPlayer.ToggleReady | src/components/SnippetPlayer.tsx:131-192 | past the guard, never playing after: exactly one command posted (`pause` when playing, else `ready_check` after an init attempt, else `initialize`), `Ended` reported only on pause, one check or one play step scheduled, the referenced timer cleared only on pause |
| SnippetPlayer.EmbedPlayer.CheckFires | src/components/SnippetPlayer.tsx:151-180 | posts `ready_check` and schedules the play step; nothing else changes |
| SnippetPlayer.EmbedPlayer.PlayStepFires | src/components/SnippetPlayer.tsx:155-176 | posts `play`, reports started and arms one fresh auto-pause timer of `duration` ms; every `play` answers an earlier `ready_check` |
| SnippetPlayer.EmbedPlayer.AutoPauseFires | src/components/SnippetPlayer.tsx:162-170 | posts `pause`, removes the timer and reports ended |
| SnippetPlayer.EmbedPlayer.Click | src/components/SnippetPlayer.tsx:195-209 | ready: the toggle's outcome (one command posted, `Ended` on pause, one check or play step scheduled, the timer cleared on pause); not ready: `initialize` posted and a 500 ms callback scheduled, nothing else changed |
| SnippetPlayer.EmbedPlayer.ClickTimerFires | src/components/SnippetPlayer.tsx:200-204 | as written: readiness forced and reported, nothing posted, no play chain scheduled; the effect re-run only when readiness flips |
| SnippetPlayer.EmbedPlayer.ForceReady | src/components/SnippetPlayer.tsx:201-202 | ready, `Ready` reported once, and the invariant kept |
| SnippetPlayer.EmbedPlayer.ClickTimerFiresIntended | src/components/SnippetPlayer.tsx:200-204 | corrected: readiness forced, then the toggle starts the play chain |
| SnippetPlayer.EmbedPlayer.Unmount | src/components/SnippetPlayer.tsx:115-122 | the watchdog, the init timer and the referenced auto-pause timer are cleared; nothing else changes |
| SnippetPlayer.ClickWhileLoadingScenario | src/components/SnippetPlayer.tsx:195-209 | a click before readiness, then its callback: ready, but only `initialize` was ever posted |
| SnippetPlayer.ClickWhileLoadingIntendedScenario | src/components/SnippetPlayer.tsx:195-209 | with the corrected callback the same click schedules the check that leads to `ready_check` and `play` |
| GamePage.ParseDifficulty | src/pages/GamePage.tsx:36 | absent or empty means easy; a level's name gives that level; any other value gives no level |
| GamePage.ParseDifficultyName | src/pages/GamePage.tsx:29-36 | each level's name is read back as that level |
| GamePage.HarderIsShorterAndRicher | src/pages/GamePage.tsx:29-34 | a harder level plays a strictly shorter snippet and pays strictly more points |
| JsNumber.Run | src/pages/GamePage.tsx:37 | the longest prefix of digits that `parseInt` reads |
| JsNumber.RunIsPrefix | src/pages/GamePage.tsx:37 | the digits read are a prefix of the text |
| JsNumber.RunOfPrefix | src/pages/GamePage.tsx:37 | a digit run followed by a non-digit is read as exactly that run |
| JsNumber.ParseInt | src/pages/GamePage.tsx:37 | a blank string is NaN |
| JsNumber.ParseUnsignedDecimal | src/pages/GamePage.tsx:37 | a decimal number followed by a non-digit is read as that number |
| JsNumber.ParseIntAfterSpace | src/pages/GamePage.tsx:37 | leading white space is skipped before the sign and digits |
| JsNumber.ParseSignedReads | src/pages/GamePage.tsx:37 | an optional sign and a decimal number read as the signed number |
| JsNumber.ParseIntDecimal | src/pages/GamePage.tsx:37 | the decimal rendering of a number reads back as it |
| JsNumber.ParseIntNaN | src/utils/itunesApi.ts:221 | a string starting with neither white space, a sign nor a digit is NaN |
| GamePage.ParseArtistId | src/pages/GamePage.tsx:37 | a missing or empty parameter reads as 0, the chart |
| GamePage.ArtistIdRoundTrip | src/pages/GamePage.tsx:37 | a decimal artist id in the URL is read back as that id |
| GamePage.GuessIgnoresCase | src/pages/GamePage.tsx:124-126 | lower-casing the guess does not change whether it is correct |
| GamePage.GuessIgnoresPadding | src/pages/GamePage.tsx:124-126 | white space around the guess does not change whether it is correct |
| GamePage.GuessNormalForm | src/pages/GamePage.tsx:124-126 | the check equals comparing the trimmed, lower-cased guess and title |
| GamePage.Scored | src/pages/GamePage.tsx:131-137 | the score grows by the level's points (at least 100); NaN when the score or the level is missing |
| GamePage.Suggestions | src/pages/GamePage.tsx:156-181 | at most 10; none for a blank query; each from a matching pool track; all matches when fewer than 10; empty iff nothing matches |
| GamePage.SuggestionsInPoolOrder | src/pages/GamePage.tsx:163-172 | for a non-blank query, exactly the first ten matches met walking the pool |
| GamePage.TakeFilterIsFirstMatches | src/pages/GamePage.tsx:164-172 | filter, map and slice equal the one-pass reference that stops after k matches |
| GamePage.StepDown | src/pages/GamePage.tsx:67-71 | ArrowDown moves one down, never past the last suggestion |
| GamePage.StepUp | src/pages/GamePage.tsx:72-74 | ArrowUp moves one up, never above the first suggestion |
| GamePage.Round.constructor | src/pages/GamePage.tsx:16-24 | a fresh round: score 0, empty guess, closed list, nothing selected |
| GamePage.Round.HandleGuess | src/pages/GamePage.tsx:117-144 | no track: nothing; otherwise the list closes and playback stops; correct: score via `Scored`, "Correct" and the result shown; wrong: "Wrong" and the guess cleared |
| GamePage.Round.ShowVerdict | src/pages/GamePage.tsx:130-143 | correct: score via `Scored`, "Correct" and the result shown, guess kept; wrong: score kept, "Wrong" and the guess cleared |
| GamePage.Round.HandleSkip | src/pages/GamePage.tsx:111-115 | playback stops and the result is shown with the skip feedback |
| GamePage.Round.HandleNextSong | src/pages/GamePage.tsx:146-154 | guess, feedback, suggestions, list and readiness reset, and one refetch requested |
| GamePage.Round.PlayerSignal | src/pages/GamePage.tsx:330-332 | ready sets readiness; started and ended set the playing flag |
| GamePage.Round.TypeGuess | src/pages/GamePage.tsx:380-384 | as written: the guess and `Suggestions` follow the input and the list opens iff non-empty, but an open list keeps the old selection |
| GamePage.Round.TypeGuessIntended | src/pages/GamePage.tsx:380-384 | corrected: the same, with the selection cleared, so it stays inside the list |
| GamePage.Round.Focus | src/pages/GamePage.tsx:183-188 | as written: a non-blank guess recomputes the list; the list ends open with the old selection |
| GamePage.Round.FocusIntended | src/pages/GamePage.tsx:183-188 | corrected: a recomputed list starts with no selection, so the selection stays inside the list |
| GamePage.Round.PickSuggestion | src/pages/GamePage.tsx:190-206 | the suggestion's name becomes the guess, the list closes and one submit is scheduled |
| GamePage.Round.SubmitTimerFires | src/pages/GamePage.tsx:195-205 | the scheduled submit runs the guess check when the form is on screen |
| GamePage.Round.SubmitForm | src/pages/GamePage.tsx:412 | a blank guess cannot be submitted; otherwise the guess check runs |
| GamePage.Round.KeyDown | src/pages/GamePage.tsx:50-81 | Escape closes the list or leaves; `s` skips and `b` leaves outside the input; arrows step the selection; Enter picks the selected suggestion; the handler throws exactly when Enter meets a selection past the end of an open list, which never happens while the selection is in range |
| GamePage.StaleSelectionScenario | src/pages/GamePage.tsx:67-79 | select the second of two suggestions, type so that one is left, press Enter: the handler throws |
| GamePage.StaleSelectionIntendedScenario | src/pages/GamePage.tsx:380-384 | the same keystrokes with the corrected input handler pick the remaining suggestion and schedule a submit |

## Left out

- HTTP requests, the Spotify Web API client, authentication and the access token's origin are not modelled. Their answers are parameters.
- Rendering, routing, focus handling and the volume controls are not modelled. Navigation to /home is a `home` flag.
- `HomePage`, `CallbackPage`, `LoadingPage` and the other pages and hooks are not part of this model.
- Lower-casing covers ASCII letters only. JavaScript's Unicode case mapping is not modelled.
- What an audio element or the embedded player does with a command is not modelled: buffering, decoding, actual sound. Only the commands issued are recorded.
- The hook effect that calls `fetchTrack` again after the pool is stored is left to the caller. Each call is a separate `FetchTrack`.
- Overlapping `fetchTrack` calls are modelled as sequential ones. In the source, `setAllTracks([])` in the iTunes reset effect stores a new empty array, which re-creates `fetchTrack`. This happens on mount, and on an artist change while no pool is loaded. The fetch effect then starts a second load while the first still waits for its catalog answers. Both loads see the empty pool, and each stored pool triggers its own draw. A game therefore starts with two draws: both ids are played, and the first track is never shown or is replaced by the second. The model runs one load and then one draw.
- Events after unmount are excluded by the `live` precondition, although the source's cleanup does not cancel every callback. In the direct player, the 500 ms click callback and the auto-stop timers orphaned by a double start survive unmount. They report readiness and the end of playback to the page. In the embed player, the 500 ms check, the 300 ms play step, the iframe-load timers and the click callback survive. A pending play step posts `play`, reports a start and arms an auto-pause. The page mounts a new player when it switches between its loading view and its main view, so these late callbacks can reach the next round. Their firings after unmount are not modelled.
- `JsNumber.ParseInt` models `parseInt` without a radix on ASCII input, and only the white space `Text.IsSpace` knows. It returns an exact integer: `parseInt` returns a double, so digit runs beyond 2^53 are rounded and distinct long id labels can become the same played key, and `parseInt("-0")` is -0. Neither is modelled.
- `GamePage.ParseDifficulty` treats every name that is not one of the four levels as unknown. In the source, a name inherited from `Object.prototype` (`toString`, `constructor`, `valueOf`, `__proto__`) looks up a function or object in both level tables, so the snippet length is not undefined and the score becomes a string concatenation rather than NaN. That outcome is not modelled.
- `SnippetPlayer.EmbedPlayer.Click`: assumes the iframe and its window exist. When they do not, the source's click does nothing.
- The `try`/`catch` around the iframe reload, and all console logging, are left out.
- `ITunesPlayer.DoubleStartScenario`: shows the orphan auto-stop timer of two starts before `play()` settles. The model keeps the source's single timer reference and has no corrected variant.
- Failures inside the shuffle fallback and the chart feed are modelled as absent answers. The error text the hooks show for a thrown exception is a parameter.

## Findings

| source | as written | input that shows it | evidently intended | confidence | as-written member | corrected member |
|---|---|---|---|---|---|---|
| src/components/ITunesPlayer.tsx:158-169 | the 500 ms callback of a click made while loading calls the `togglePlayback` of the click's render, which still sees `playerReady` false and returns | click the play button before `canplaythrough`, wait 500 ms | the click starts playback once readiness is forced | not executed | ITunesPlayer.ClickWhileLoadingScenario | ITunesPlayer.ClickWhileLoadingIntendedScenario |
| src/components/SnippetPlayer.tsx:195-209 | the same stale `togglePlayback` in the embed player: `initialize` is posted, readiness forced, but no `ready_check` or `play` follows | click before the embed sends `ready`, wait 500 ms | the click goes on to the play chain | not executed | SnippetPlayer.ClickWhileLoadingScenario | SnippetPlayer.ClickWhileLoadingIntendedScenario |
| src/pages/GamePage.tsx:67-79 | typing keeps `selectedSuggestionIndex` while the list stays open, so it can point past a shorter new list; Enter then calls `handleSuggestionClick(undefined)`, which throws | pool titles "ab" and "ac": type "a", ArrowDown twice, type "b", press Enter | a new list starts with no selection, so Enter either picks a listed suggestion or does nothing | not executed | GamePage.StaleSelectionScenario | GamePage.StaleSelectionIntendedScenario |
| src/hooks/useITunes.ts:106-117 | the fetch effect of the commit that changes `artistId` runs a `fetchTrack` that still sees the previous artist's pool, because the reset's `setAllTracks([])` only lands on the next render; it publishes one of the previous artist's songs under the new name and leaves its id played | artist 1 has only song a; artist 2 has none and falls back to chart songs a and b; fetch twice, then switch to artist 2 | the new artist's first fetch loads its own pool, and its rotation starts with nothing played | not executed | ITunesHook.StaleArtistScenario | ITunesHook.StaleArtistIntendedScenario |
| src/hooks/useSpotify.ts:192-194 | a new artist name clears only the played set; the previous artist's pool stays, and the next call serves from it | load a pool for artist A, change the name to B, fetch | the pool is cleared too, as in src/hooks/useITunes.ts:109-112, so the next call loads B's catalog | not executed | SpotifyHook.StaleCatalogScenario | SpotifyHook.StaleCatalogIntendedScenario |
