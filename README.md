# Old Skool Sessions: post paging and playback bookkeeping in Dafny

A verified model of the sequential logic of the Old Skool Sessions Android app. There are four parts:

- **Post list paging** (`HomeViewModel`). The model keeps a page cursor (`currentPage`), an end
  marker (`isLastPage`), the posts loaded so far (`postsList`), the published `posts`, and the
  `isLoading` and `error` flags. `loadFirstPage`/`refresh` reset these and fetch page 1.
  `loadNextPage` is guarded and appends the next page.
- **The page stream** (`WordPressRepository.getPostsStream`). It requests pages 1, 2, 3, … and
  emits each non-empty page until a page comes back empty or a request throws.
  `getPostsPage(p)` is one request for page `p`.
- **The legacy playback manager** (`OSSMediaManager`). It tracks:
  - the playing flag, position, duration, title and artwork shown to the UI;
  - the metadata cached for the media session, and the "update owed" flag
    (`pendingMetadataUpdate`);
  - the calls it makes on the media service;
  - its `m:ss` time label.
- **The Media3 player screen** (`PlayerDetailFragmentMedia3`). It has the `mm:ss` time label, and a
  seek bar whose `userIsSeeking` flag stops position updates from overwriting a drag.

Each stateful component is a class. `MediaManager` and `HomeViewModel` have the Kotlin classes'
fields; `MediaManager.calls` is added as a log of the calls made on the service. `PlayerDetailScreen`
holds the fragment's `userIsSeeking` flag, plus widget state it drives (the bar's `progress` and `max`,
the `currentTime` and `totalTime` labels) and `seeks`, a log of the seeks it asked the player for.
`State()` takes a snapshot of those fields as a datatype. Each method is proved to produce `State() == XStep(old(State()), …)`,
where `XStep` is a pure step function. The properties are proved about the step functions:

- the contracts of the step functions;
- invariants, such as "the cursor counts the appended pages" and "`isPlaying` agrees with the player";
- lemmas relating several steps: toggling twice, idempotent notification buttons, a whole drag,
  and the view model agreeing with the stream.

Time labels get a partner, `Decimal.ParseClock`, a reader for `minutes:seconds` labels. For a
non-negative time, both `formatTime` variants are proved to read back as exactly the minutes and
seconds they encode.

External parts become values or parameters:

- The WordPress endpoint is a function `Api = (int, int) -> Fetch`, from (page, per-page) to a page
  of posts or an exception with optional message. It is passed to each load as the endpoint
  answers at that moment.
- The `MediaPlayer` is present or absent, plus its playing bit. Positions and durations it reports
  are parameters.
- The media service is a "bound" flag plus a log of calls (`UpdatePlaybackState`,
  `UpdateMetadata`, `SetDirectArtwork`).
- Kotlin's `/` truncates toward zero, and `%` takes the sign of the dividend. `Long.toInt()`
  keeps the low 32 bits. Both are
  written out in `Numeric`.
- `String.format("%d")` and `"%02d"` are written out in `Decimal`, with ASCII digits.

Files: `optional.dfy`, `numeric.dfy`, `decimal.dfy`, `posts.dfy`, `repository.dfy`,
`viewmodel.dfy`, `media.dfy`, `playerscreen.dfy`.

## Model

| member | source | states |
|---|---|---|
| `Numeric.Quot` | app/src/main/java/com/oldskool/sessions/media/OSSMediaManager.kt:459-460 | Kotlin `/` by a positive divisor rounds toward zero: the remainder left is in [0, b) for a non-negative dividend and in (-b, 0] for a negative one |
| `Numeric.Rem` | app/src/main/java/com/oldskool/sessions/media/OSSMediaManager.kt:461 | Kotlin `%` is what the truncating quotient leaves, with the dividend's sign, and is below the divisor in magnitude |
| `Numeric.ToInt` | app/src/main/java/com/oldskool/sessions/ui/player/PlayerDetailFragmentMedia3.kt:184 | `Long.toInt()` agrees with its argument modulo 2^32, and is the identity on values that fit in an `Int` |
| `Decimal.DigitsRoundTrip` | app/src/main/java/com/oldskool/sessions/media/OSSMediaManager.kt:462 | the decimal digits written for `n` read back as `n` |
| `Decimal.FormatD` | app/src/main/java/com/oldskool/sessions/media/OSSMediaManager.kt:462 | `%d` writes a non-negative number as digits with no leading zero that read back as it, and a negative one as `-` then the digits of its magnitude, again with no leading zero |
| `Decimal.Format02D` | app/src/main/java/com/oldskool/sessions/ui/player/PlayerDetailFragmentMedia3.kt:254 | `%02d` gives at least two characters. A number in 0..99 gets exactly two digits that read back as it. No leading zero from 10 up. A negative number keeps its sign, followed by its digits with no leading zero |
| `Decimal.ParseClock` | app/src/main/java/com/oldskool/sessions/media/OSSMediaManager.kt:458-463 | the reader both time labels are proved against: a label it accepts ends in `:` and a two-character seconds field, and it returns the minutes and seconds shown |
| `Repository.GetPostsStream` | app/src/main/java/com/oldskool/sessions/repository/WordPressRepository.kt:30-43 | if some page is empty or throws, the loop ends. It has requested pages 1..k with page size 10, where k is the first such page. It has emitted pages 1..k-1 in order, each non-empty, and `last` is page k's response |
| `Repository.FirstStopExists` | app/src/main/java/com/oldskool/sessions/repository/WordPressRepository.kt:34-42 | a page that ends the stream means there is a first such page, no later than it |
| `Repository.GetPostsPage` | app/src/main/java/com/oldskool/sessions/repository/WordPressRepository.kt:45-47 | `getPostsPage(page)` is the endpoint's answer to one request for `page` with page size 10 |
| `ViewModel.ResetForFirstPage` | app/src/main/java/com/oldskool/sessions/viewmodel/HomeViewModel.kt:33-37 | the first-page reset: loading, error cleared, list emptied, page 1, end marker cleared, published posts untouched |
| `ViewModel.BeginNextPage` | app/src/main/java/com/oldskool/sessions/viewmodel/HomeViewModel.kt:60-61 | a next-page load that passes the guard sets loading and clears the error and nothing else |
| `ViewModel.Settle` | app/src/main/java/com/oldskool/sessions/viewmodel/HomeViewModel.kt:39-50 | end of a load, by response. Always: loading is false. Exception: error is the message or the fallback text; cursor, end marker, list and published posts unchanged. Empty page: end marker set, nothing else changes. Posts: list gains the page in order, `posts` publishes the list, cursor up by exactly 1 |
| `ViewModel.FirstPageStep` | app/src/main/java/com/oldskool/sessions/viewmodel/HomeViewModel.kt:30-53 | `loadFirstPage` requests page 1 and ends not loading. If page 1 has posts, they become the whole list, are published, and the cursor is 2. Otherwise the list is empty, the cursor is 1, and `posts` keep their old value. The end marker is set exactly when page 1 is empty. The error is the exception's message or `Failed to load posts` when the request throws, and none otherwise |
| `ViewModel.NextPageStep` | app/src/main/java/com/oldskool/sessions/viewmodel/HomeViewModel.kt:55-77 | a blocked `loadNextPage` changes nothing. Otherwise it requests the page under the cursor and ends not loading. A page with posts is appended, the list is published, and the cursor moves on. An empty page sets the end marker. A throw sets the error to its message or `Failed to load more posts`. In every other case the error is cleared and the list and cursor stay |
| `ViewModel.NextPageBlocked` | app/src/main/java/com/oldskool/sessions/viewmodel/HomeViewModel.kt:56 | the guard of `loadNextPage`: a load is running, or the last page was reached |
| `ViewModel.SettlePreservesInvariant` | app/src/main/java/com/oldskool/sessions/viewmodel/HomeViewModel.kt:43-45 | settling keeps the invariant: `currentPage - 1` is the number of non-empty pages appended since the reset, and the list is those pages joined in order |
| `ViewModel.FirstPageInvariant` | app/src/main/java/com/oldskool/sessions/viewmodel/HomeViewModel.kt:30-53 | `loadFirstPage` establishes the invariant from any state |
| `ViewModel.NextPageInvariant` | app/src/main/java/com/oldskool/sessions/viewmodel/HomeViewModel.kt:55-77 | `loadNextPage` preserves the invariant |
| `ViewModel.NextPageGuard` | app/src/main/java/com/oldskool/sessions/viewmodel/HomeViewModel.kt:56 | while loading, or once the last page is reached, `loadNextPage` changes nothing; otherwise it ends not loading |
| `ViewModel.NextPageAppends` | app/src/main/java/com/oldskool/sessions/viewmodel/HomeViewModel.kt:63-69 | an unblocked `loadNextPage` requests the page under the cursor. When that page has posts, they are appended, the list is published, the cursor goes up by 1 and there is no error |
| `ViewModel.FirstPageWithoutPosts` | app/src/main/java/com/oldskool/sessions/viewmodel/HomeViewModel.kt:35-48 | a first page that fails or is empty leaves the list empty and the cursor at 1. Published `posts` keep their old value. The end marker is set exactly when page 1 was empty |
| `ViewModel.FirstPageAgrees` | app/src/main/java/com/oldskool/sessions/viewmodel/HomeViewModel.kt:39-45 | after `loadFirstPage` the appended pages are what the endpoint serves for page 1, and a set end marker means page 1 is empty |
| `ViewModel.NextPageAgrees` | app/src/main/java/com/oldskool/sessions/viewmodel/HomeViewModel.kt:63-69 | against an endpoint that does not change, `loadNextPage` keeps the appended pages equal to the endpoint's pages 1, 2, … |
| `ViewModel.LastPageMatchesStream` | app/src/main/java/com/oldskool/sessions/viewmodel/HomeViewModel.kt:64-65 | once the end marker is set against an unchanged endpoint, the cursor is the stream's first stopping page and the list is the concatenation of exactly what `getPostsStream` emits |
| `ViewModel.HomeViewModel.constructor` | app/src/main/java/com/oldskool/sessions/viewmodel/HomeViewModel.kt:22-28 | construction is the declared fields followed by `loadFirstPage`; the invariant holds |
| `ViewModel.HomeViewModel.LoadFirstPage` | app/src/main/java/com/oldskool/sessions/viewmodel/HomeViewModel.kt:30-53 | the new state is `FirstPageStep` of the old one (reset, then settle with page 1's response); the invariant holds |
| `ViewModel.HomeViewModel.LoadNextPage` | app/src/main/java/com/oldskool/sessions/viewmodel/HomeViewModel.kt:55-77 | the new state is `NextPageStep` of the old one; the ghost page record is untouched when blocked; the invariant is kept |
| `ViewModel.HomeViewModel.Refresh` | app/src/main/java/com/oldskool/sessions/viewmodel/HomeViewModel.kt:79-81 | exactly `loadFirstPage` |
| `ViewModel.HomeViewModel.FetchCurrentPage` | app/src/main/java/com/oldskool/sessions/viewmodel/HomeViewModel.kt:63-74 | requests `getPostsPage(currentPage)` and settles with that response, keeping the invariant |
| `Media.MetadataUpdateStep` | app/src/main/java/com/oldskool/sessions/media/OSSMediaManager.kt:389-418 | with neither title nor artwork cached it changes nothing. Without a service it only sets `pendingMetadataUpdate`. With one it sends the cached title (or "") with artist "Old Skool Sessions" and the cached artwork |
| `Media.Report` | app/src/main/java/com/oldskool/sessions/media/OSSMediaManager.kt:370-373 | `mediaService?.updatePlaybackState(state, position)`: with the service bound, that one call is added after the calls already made. Without a service nothing changes |
| `Media.MetadataSyncStep` | app/src/main/java/com/oldskool/sessions/media/OSSMediaManager.kt:63-69 | `ensureMetadataSync` always leaves the flag false, and with no update owed it changes nothing. With an update owed and the service bound, it sends the cached metadata, if any, after the calls already made. Without a service it sends nothing |
| `Media.ToggleStep` | app/src/main/java/com/oldskool/sessions/media/OSSMediaManager.kt:312-365 | with no player it changes nothing. Otherwise it starts a player that is not playing and pauses one that is, and `isPlaying` follows. Without a service it sets the pending flag and calls nothing. With one, the calls made so far are kept. Starting adds the owed metadata update (if an update was owed), the metadata refresh, then PLAYING at the player's position, and clears the flag. Pausing adds the metadata refresh, then PAUSED at the player's position. A refresh is sent only when something is cached |
| `Media.SeekStep` | app/src/main/java/com/oldskool/sessions/media/OSSMediaManager.kt:367-374 | `seekTo(p)` sets the position to `p`, reports PLAYING if playing and otherwise PAUSED at `p`, and leaves `isPlaying` and the rest unchanged |
| `Media.ProgressStep` | app/src/main/java/com/oldskool/sessions/media/OSSMediaManager.kt:376-387 | `updateProgress` changes only the position, and only while a player is playing, to the player's position |
| `Media.Halted` | app/src/main/java/com/oldskool/sessions/media/OSSMediaManager.kt:211-219 | `cleanupCurrentTrack` (also the first step of `cleanupPlayback`, lines 195-200): a player that was there is still there and no longer playing, and no player stays no player |
| `Media.CleanupStep` | app/src/main/java/com/oldskool/sessions/media/OSSMediaManager.kt:193-209 | `cleanupPlayback` halts the player, clears `isPlaying` and sets position 0. It reports STOPPED and keeps title, artwork, duration and cached metadata |
| `Media.PrepareStep` | app/src/main/java/com/oldskool/sessions/media/OSSMediaManager.kt:221-310 | the fragment id is recorded and nothing plays. On success a fresh idle player comes in, with the new title and artwork and position 0. If building the player throws, the old player stays halted, the UI fields stay and ERROR is reported |
| `Media.PreparedStep` | app/src/main/java/com/oldskool/sessions/media/OSSMediaManager.kt:235-245 | on prepared: the duration is recorded and the title is cached with no artwork. With a service: the metadata, then PAUSED at 0, is sent. Without one: the pending flag is set. Nothing else changes: player, position, UI title and artwork, service binding and fragment id are kept |
| `Media.ArtworkStep` | app/src/main/java/com/oldskool/sessions/media/OSSMediaManager.kt:249-278 | the loaded artwork is cached. With a service, after the calls already made, it sends the metadata with the new artwork and then the direct artwork. Without one, an update is owed |
| `Media.CompletionStep` | app/src/main/java/com/oldskool/sessions/media/OSSMediaManager.kt:282-286 | on completion nothing plays and STOPPED is reported |
| `Media.PlayerErrorStep` | app/src/main/java/com/oldskool/sessions/media/OSSMediaManager.kt:288-293 | on a player error nothing plays and ERROR is reported |
| `Media.PlayClickStep` | app/src/main/java/com/oldskool/sessions/media/OSSMediaManager.kt:76-81 | the notification's play button does nothing while playing; otherwise it is `togglePlayPause`. With a player, playback is running afterwards |
| `Media.PauseClickStep` | app/src/main/java/com/oldskool/sessions/media/OSSMediaManager.kt:83-88 | the notification's pause button does nothing while not playing; otherwise it is `togglePlayPause`. Playback is stopped afterwards |
| `Media.StopClickStep` | app/src/main/java/com/oldskool/sessions/media/OSSMediaManager.kt:90-104 | the stop button: no player, no change. Otherwise the player stops, `isPlaying` is false and STOPPED is reported |
| `Media.ReleaseStep` | app/src/main/java/com/oldskool/sessions/media/OSSMediaManager.kt:420-443 | `release` drops the player. It resets `isPlaying`, position, duration, title, artwork and both cached fields, and reports STATE_NONE and empty metadata to a bound service |
| `Media.DestroyStep` | app/src/main/java/com/oldskool/sessions/media/OSSMediaManager.kt:445-456 | `destroy` is `release` followed by the service being gone |
| `Media.FormatTime` | app/src/main/java/com/oldskool/sessions/media/OSSMediaManager.kt:458-463 | for non-negative `ms` the label reads back as minutes `ms/1000/60` and seconds `(ms/1000)%60`. The minutes are unpadded (no leading zero unless 0) and the seconds have two digits after ':' |
| `Media.FormatTimeFields` | app/src/main/java/com/oldskool/sessions/media/OSSMediaManager.kt:459-461 | the seconds field is in 0..59 and minutes*60 + seconds = `ms/1000` |
| `Media.FormatTimeSameSecond` | app/src/main/java/com/oldskool/sessions/media/OSSMediaManager.kt:458-463 | two non-negative times format identically exactly when they fall in the same whole second |
| `Media.ToggleFlips` | app/src/main/java/com/oldskool/sessions/media/OSSMediaManager.kt:321-343 | with a player, a toggle flips `isPlaying`, and two toggles restore both `isPlaying` and the player |
| `Media.NotificationButtonsIdempotent` | app/src/main/java/com/oldskool/sessions/media/OSSMediaManager.kt:76-88 | pressing the notification's play, or pause, twice is the same as pressing it once |
| `Media.OwedMetadataDeliveredOnPlay` | app/src/main/java/com/oldskool/sessions/media/OSSMediaManager.kt:321-335 | an owed update is sent when playback starts with the service bound: metadata twice (sync, then refresh), then PLAYING. The flag ends cleared |
| `Media.ReleaseRestoresInitial` | app/src/main/java/com/oldskool/sessions/media/OSSMediaManager.kt:420-443 | after `release`, every field except four is back at its declared initial value. The four are the service binding, the call log, `sourceFragmentId` and `pendingMetadataUpdate`, which `release` never resets, so an owed update survives it |
| `Media.MediaManager.constructor` | app/src/main/java/com/oldskool/sessions/media/OSSMediaManager.kt:37-61 | the fields start as declared, with no player and no service yet |
| `Media.MediaManager.OnServiceConnected` | app/src/main/java/com/oldskool/sessions/media/OSSMediaManager.kt:72-74 | the service becomes bound, nothing else changes |
| `Media.MediaManager.OnServiceDisconnected` | app/src/main/java/com/oldskool/sessions/media/OSSMediaManager.kt:118-121 | the service is gone, nothing else changes |
| `Media.MediaManager.ReportState` | app/src/main/java/com/oldskool/sessions/media/OSSMediaManager.kt:370-373 | the new state is `Report` of the old one |
| `Media.MediaManager.UpdateMediaSessionMetadata` | app/src/main/java/com/oldskool/sessions/media/OSSMediaManager.kt:389-418 | the new state is `MetadataUpdateStep` of the old one |
| `Media.MediaManager.EnsureMetadataSync` | app/src/main/java/com/oldskool/sessions/media/OSSMediaManager.kt:63-69 | the new state is `MetadataSyncStep` of the old one |
| `Media.MediaManager.CleanupPlayback` | app/src/main/java/com/oldskool/sessions/media/OSSMediaManager.kt:193-209 | the new state is `CleanupStep` of the old one; `isPlaying` keeps agreeing with the player |
| `Media.MediaManager.PrepareAudio` | app/src/main/java/com/oldskool/sessions/media/OSSMediaManager.kt:221-310 | the new state is `PrepareStep` of the old one; agreement kept |
| `Media.MediaManager.OnPrepared` | app/src/main/java/com/oldskool/sessions/media/OSSMediaManager.kt:235-245 | the new state is `PreparedStep` of the old one; agreement kept |
| `Media.MediaManager.OnArtworkLoaded` | app/src/main/java/com/oldskool/sessions/media/OSSMediaManager.kt:249-278 | the new state is `ArtworkStep` of the old one; agreement kept |
| `Media.MediaManager.OnCompletion` | app/src/main/java/com/oldskool/sessions/media/OSSMediaManager.kt:282-286 | the new state is `CompletionStep` of the old one; agreement kept |
| `Media.MediaManager.OnPlayerError` | app/src/main/java/com/oldskool/sessions/media/OSSMediaManager.kt:288-293 | the new state is `PlayerErrorStep` of the old one; agreement kept |
| `Media.MediaManager.TogglePlayPause` | app/src/main/java/com/oldskool/sessions/media/OSSMediaManager.kt:312-365 | the new state is `ToggleStep` of the old one; agreement kept |
| `Media.MediaManager.SeekTo` | app/src/main/java/com/oldskool/sessions/media/OSSMediaManager.kt:367-374 | the new state is `SeekStep` of the old one; agreement kept |
| `Media.MediaManager.UpdateProgress` | app/src/main/java/com/oldskool/sessions/media/OSSMediaManager.kt:376-387 | the new state is `ProgressStep` of the old one; agreement kept |
| `Media.MediaManager.OnPlayClicked` | app/src/main/java/com/oldskool/sessions/media/OSSMediaManager.kt:76-81 | the new state is `PlayClickStep` of the old one; agreement kept |
| `Media.MediaManager.OnPauseClicked` | app/src/main/java/com/oldskool/sessions/media/OSSMediaManager.kt:83-88 | the new state is `PauseClickStep` of the old one; agreement kept |
| `Media.MediaManager.OnStopClicked` | app/src/main/java/com/oldskool/sessions/media/OSSMediaManager.kt:90-104 | the new state is `StopClickStep` of the old one; agreement kept |
| `Media.MediaManager.OnSeekTo` | app/src/main/java/com/oldskool/sessions/media/OSSMediaManager.kt:106-109 | a notification seek is `seekTo` |
| `Media.MediaManager.Release` | app/src/main/java/com/oldskool/sessions/media/OSSMediaManager.kt:420-443 | the new state is `ReleaseStep` of the old one |
| `Media.MediaManager.Destroy` | app/src/main/java/com/oldskool/sessions/media/OSSMediaManager.kt:445-456 | the new state is `DestroyStep` of the old one |
| `PlayerScreen.FormatTime` | app/src/main/java/com/oldskool/sessions/ui/player/PlayerDetailFragmentMedia3.kt:250-255 | for non-negative `ms` the label reads back as minutes `ms/1000/60` and seconds `(ms/1000)%60`. Both fields are zero-padded to exactly two digits when below 100, so the label is 5 characters long while the minutes stay below 100. A longer minutes field has no leading zero |
| `PlayerScreen.FormatTimeZero` | app/src/main/java/com/oldskool/sessions/ui/player/PlayerDetailFragmentMedia3.kt:70 | `formatTime(0)` is "00:00", the label the screen starts with |
| `PlayerScreen.FormatTimeSameSecond` | app/src/main/java/com/oldskool/sessions/ui/player/PlayerDetailFragmentMedia3.kt:251-253 | two non-negative times format identically exactly when they fall in the same whole second |
| `PlayerScreen.Created` | app/src/main/java/com/oldskool/sessions/ui/player/PlayerDetailFragmentMedia3.kt:69-71 | the screen starts not seeking, with no seeks, showing `formatTime(0)` and "--:--"; the bar keeps the progress and maximum the layout gives it |
| `PlayerScreen.ProgressChangedStep` | app/src/main/java/com/oldskool/sessions/ui/player/PlayerDetailFragmentMedia3.kt:139-143 | only a change made by the user moves the bar and relabels it with the dragged-to time |
| `PlayerScreen.StartTrackingStep` | app/src/main/java/com/oldskool/sessions/ui/player/PlayerDetailFragmentMedia3.kt:145-147 | starting a drag sets `userIsSeeking` and nothing else |
| `PlayerScreen.StopTrackingStep` | app/src/main/java/com/oldskool/sessions/ui/player/PlayerDetailFragmentMedia3.kt:149-162 | ending a drag clears `userIsSeeking`, and asks for a seek to the bar's progress exactly when it is >= 0 |
| `PlayerScreen.DurationStep` | app/src/main/java/com/oldskool/sessions/ui/player/PlayerDetailFragmentMedia3.kt:182-187 | only a duration > 0 sets the bar maximum (as `toInt()`) and the total label |
| `PlayerScreen.PositionStep` | app/src/main/java/com/oldskool/sessions/ui/player/PlayerDetailFragmentMedia3.kt:190-195 | while seeking a position update changes nothing. Otherwise it sets the bar's progress and the current label |
| `PlayerScreen.TickStep` | app/src/main/java/com/oldskool/sessions/ui/player/PlayerDetailFragmentMedia3.kt:212-219 | a progress-job round acts as a position update, and only while not seeking and playing |
| `PlayerScreen.PositionOverwrites` | app/src/main/java/com/oldskool/sessions/ui/player/PlayerDetailFragmentMedia3.kt:190-195 | outside a drag, a position update overwrites the one before it |
| `PlayerScreen.DragHoldsAgainstPositions` | app/src/main/java/com/oldskool/sessions/ui/player/PlayerDetailFragmentMedia3.kt:191 | any number of position updates during a drag leave the bar and the label as they were |
| `PlayerScreen.LastPositionWins` | app/src/main/java/com/oldskool/sessions/ui/player/PlayerDetailFragmentMedia3.kt:190-195 | outside a drag, a run of position updates leaves the screen as if only the last one had arrived, so the bar and the label show it |
| `PlayerScreen.DragSeeksToTarget` | app/src/main/java/com/oldskool/sessions/ui/player/PlayerDetailFragmentMedia3.kt:139-162 | a whole drag to `target`, with updates meanwhile, ends not seeking, shows `target`'s time, and asks for one seek to `target` exactly when it is >= 0 |
| `PlayerScreen.PlayerDetailScreen.constructor` | app/src/main/java/com/oldskool/sessions/ui/player/PlayerDetailFragmentMedia3.kt:69-71 | the state is `Created` with the layout's bar values |
| `PlayerScreen.PlayerDetailScreen.OnProgressChanged` | app/src/main/java/com/oldskool/sessions/ui/player/PlayerDetailFragmentMedia3.kt:139-143 | the new state is `ProgressChangedStep` of the old one |
| `PlayerScreen.PlayerDetailScreen.OnStartTrackingTouch` | app/src/main/java/com/oldskool/sessions/ui/player/PlayerDetailFragmentMedia3.kt:145-147 | the new state is `StartTrackingStep` of the old one |
| `PlayerScreen.PlayerDetailScreen.OnStopTrackingTouch` | app/src/main/java/com/oldskool/sessions/ui/player/PlayerDetailFragmentMedia3.kt:149-162 | the new state is `StopTrackingStep` of the old one |
| `PlayerScreen.PlayerDetailScreen.OnDurationChanged` | app/src/main/java/com/oldskool/sessions/ui/player/PlayerDetailFragmentMedia3.kt:182-187 | the new state is `DurationStep` of the old one |
| `PlayerScreen.PlayerDetailScreen.OnPositionChanged` | app/src/main/java/com/oldskool/sessions/ui/player/PlayerDetailFragmentMedia3.kt:190-195 | the new state is `PositionStep` of the old one |
| `PlayerScreen.PlayerDetailScreen.ProgressTick` | app/src/main/java/com/oldskool/sessions/ui/player/PlayerDetailFragmentMedia3.kt:212-219 | the new state is `TickStep` of the old one |

## Left out

- Concurrency: `viewModelScope.launch`, `StateFlow`/`LiveData` delivery, and overlapping loads.
  Each load is one atomic step. So `isLoading` is false between steps, and the `isLoading` half of
  the guard in `loadNextPage` is stated but no sequence of modelled steps reaches it.
- Networking: Retrofit, OkHttp, the base URL, timeouts, the `_fields` query and JSON decoding. The
  endpoint is the `Api` function. The lemmas linking the view model to the stream assume the
  endpoint does not change between requests.
- Repository.GetPostsStream: an endpoint that never returns an empty page gives an endless flow.
  The model requires some stopping page, and does not model the `Int` overflow of `currentPage` on
  such an endpoint. The same overflow in `HomeViewModel` (2^31 pages) is not modelled either.
- MediaPlayer internals are not modelled: its idle/prepared/error state machine, `prepareAsync`,
  wake locks and the data source URL. The exceptions `start()`/`pause()` can throw in
  `togglePlayPause` (the `catch` at OSSMediaManager.kt:357-364) are not modelled. Neither are the
  `catch` blocks of `updateMediaSessionMetadata` (414-417), `updateProgress` (384-386) and the
  stop-button callback (101-103). `seekTo` forwarding `position.toInt()` to the player is not
  modelled, because the player's own position is not part of the state.
- Artwork: Glide loading, retries, the bitmap copy (the callback's bitmap is cached as received),
  and the notification rebuild at OSSMediaManager.kt:267-274. These are foreign library calls.
- The singleton `getInstance`, the `WeakReference` context, `bindService`/`startService`,
  unbinding/stopping the service, and all logging. These are Android plumbing.
- PlayerDetailFragmentMedia3 parts not modelled: album-art loading, navigation, the click
  listeners forwarding to the controller, the play/pause icon and title observers, the progress
  job's delays and cancellation, and SeekBar clamping of assigned progress to [0, max]. These are
  UI wiring and widget behaviour.
- PlayerScreen.FormatTime: ASCII digits are assumed. The source formats with the default locale,
  which can choose other digits.
