# Podcast player: playback record, coordinators and player surfaces

This project models the playback core of a React/Redux podcast and video web application in Dafny.

- **The playback record.** One Redux slice holds the current track, the transport fields (time,
  duration, playing, loading, buffered), volume and mute, the mini-player's visibility and a
  "play when ready" request. Its reducers are the pure `AudioSlice.Reduce`. The store is the class
  `AudioSlice.AudioStore`, whose `Dispatch` runs a reducer in place.
- **The coordinators.** They keep one media element (`Media.MediaElement`) in step with the record:
  - the application-wide hook (`GlobalAudioPlayer`);
  - the page-level Redux hook (`ReduxAudioPlayer`);
  - the self-contained local hook (`LocalAudioPlayer`);
  - the old stand-alone player page (`LegacyPlayer`);
  - the trending cards' private element (`Trending`).

  Each coordinator is a class over the element. Its effects and event handlers are methods. What
  one event does to the record is a pure fold function, and the properties are proved about that
  function.
- **The surfaces that issue intents.** These are:
  - the full player page (`FullPlayer`);
  - the desktop and mobile mini players (`MiniPlayer`, `PlayerIntents`, `Skips`);
  - the progress bar (`ProgressBar`);
  - the playlist page (`PlaylistDetail`);
  - the AI suggestions panel (`AISuggestions`);
  - the "Trending Now" grid (`NewTrend`);
  - the video page (`VideoPlayer`);
  - the draggable mini player's position (`Draggable`).
- **The pure helpers they rely on:**
  - the clock formatting of times (`TimeFormat`);
  - the track service and the static playlist data (`AudioTrackService`, `PlaylistData`);
  - the suggestion service's reply parsing and selection (`GeminiService`);
  - the JavaScript string operations they use (`Text`).

Some values come from outside the program. Each of them becomes an input of the operation that
reads it:

- whether `play()` resolves;
- the expiry of the 10 s loading fallback timer (an event, `LoadTimeout`);
- the HEAD request's outcome;
- whether a lookup throws;
- the model's reply and whether it parsed as a JSON array;
- the viewport size.

The browser's saved position becomes a field of the draggable player (`saved`).

Where the documented behaviour and the code differ, the model follows the code:

- **Track cleared while playing.** `setCurrentTrack(null)` leaves `isPlaying` as it was, so the
  record can say "no track" while playing (`AudioSlice.ClearingTrackKeepsPlaying`). The documented
  invariant "no track ⇒ not playing" does not hold in the code.
- **Deferred play is not once per request.** It is issued on every `loadedmetadata` or `canplay`
  event that finds `isPlaying` or `pendingPlay`. Once consumed, the request has set `isPlaying`,
  so a later readiness event calls `play()` again
  (`GlobalAudioPlayer.ReadinessAfterConsumedRequestPlaysAgain`). The documented behaviour is
  "exactly once".
- **Pausing does not clear the request.** `setPlaying(false)` does not clear `pendingPlay`, and
  `setVolume` stores its payload unclamped. Seeks from the mini players and the progress bar store
  the value as given, without clamping it to the duration (`PlayerIntents.Seek`).
- **Skip with no duration rewinds.** The store-driven skip forward is
  `min(currentTime + 15, duration)`, so with no duration known yet it rewinds to 0
  (`Skips.ForwardWithoutDurationRewinds`).
- **The "Machine Learning" playlist.** It stores `trackCount` 8 but holds seven tracks
  (`PlaylistData.PlaylistCountDisagrees`).
- **Legacy skips.** The legacy page's skip buttons move only the element, not its state
  (`LegacyPlayer.LegacyAudioPlayer.SkipForward`).

## Model

| member | source | states |
|---|---|---|
| AudioSlice.Reduce | src/store/audioSlice.ts:39-99 | each reducer assigns exactly the fields it writes (`Writes`), and every other field keeps its value |
| AudioSlice.SetCurrentTrackResets | src/store/audioSlice.ts:39-50 | a new track zeroes time, duration and buffered, stops playback, starts loading and clears the request; volume, mute and visibility survive |
| AudioSlice.ClearingTrackKeepsPlaying | src/store/audioSlice.ts:39-50 | clearing the track changes nothing else, so a playing record stays playing with no track |
| AudioSlice.SetDurationEndsLoading | src/store/audioSlice.ts:57-60 | `setDuration` stores the duration and ends loading |
| AudioSlice.SetVolumeMutesAtZero | src/store/audioSlice.ts:61-64 | the volume is stored unclamped, and the record is muted exactly when the payload is 0 |
| AudioSlice.MuteRoundTrip | src/store/audioSlice.ts:65-67 | muting then unmuting gives the record with `isMuted` false and the stored volume intact |
| AudioSlice.ResetKeepsPendingPlay | src/store/audioSlice.ts:80-86 | `resetAudioState` clears the transport fields but keeps the track, the pending request, volume, mute and visibility |
| AudioSlice.ResetAllIsInitial | src/store/audioSlice.ts:87-99 | `resetAllAudioState` gives the initial record from any record |
| AudioSlice.ReduceIdempotent | src/store/audioSlice.ts:39-99 | every action applied twice has the effect of applying it once |
| AudioSlice.SingleFieldSetters | src/store/audioSlice.ts:51-79 | each single-field setter changes exactly the field it names |
| AudioSlice.AudioStore.constructor | src/store/audioSlice.ts:22-33 | the store starts with the initial record |
| AudioSlice.AudioStore.Dispatch | src/store/audioSlice.ts:35-99 | the new record is `Reduce` of the old one |
| Tracks.Ids | src/utils/playlistData.ts:1-12 | one id per track, in order |
| Tracks.FindById | src/components/player/services/audioTrackService.ts:62-66 | the first track with the id, and None exactly when no track has it |
| Tracks.FindListed | src/components/player/services/audioTrackService.ts:62-66 | with distinct ids, looking up a listed track's id finds that very track |
| Media.MediaElement.constructor | src/hooks/useGlobalAudioPlayer.ts:26-36 | a new element has no source, is paused at 0, at full volume, and has had no `play()` call |
| Media.MediaElement.Play | src/hooks/useGlobalAudioPlayer.ts:51-63 | counts a `play()` call; the element plays only if the promise resolves |
| Media.MediaElement.Pause | src/hooks/useGlobalAudioPlayer.ts:51-63 | the element is paused and nothing else changes |
| Media.MediaElement.Load | src/hooks/useGlobalAudioPlayer.ts:43-46 | assigning a source pauses the element, rewinds it to 0 and forgets the old duration and buffered ranges; volume and the count of `play()` calls are kept |
| ElementSync.FoldShared | src/hooks/useGlobalAudioPlayer.ts:94-174 | no shared handler touches the track, volume, mute, visibility or request; only `ended` stops playback |
| ElementSync.ToggleMuteTwiceRestoresVolume | src/hooks/useGlobalAudioPlayer.ts:65-71 | muting silences the element, and muting twice gives back the audible volume |
| ElementSync.MetadataRecordsDuration | src/hooks/useGlobalAudioPlayer.ts:94-108 | `loadedmetadata` records the element's duration and ends loading, and nothing else |
| ElementSync.ReadyOrFailedEndsLoading | src/hooks/useGlobalAudioPlayer.ts:123-158 | `canplay`, `canplaythrough` and `error` only end loading; no retry follows an error |
| ElementSync.TimeUpdateWithinTolerance | src/hooks/useGlobalAudioPlayer.ts:110-115 | a time update is copied exactly when it drifts more than 0.5 s, and afterwards record and element are within 0.5 s |
| ElementSync.EndedRewinds | src/hooks/useGlobalAudioPlayer.ts:117-121 | `ended` stops playback and rewinds the record to 0 |
| ElementSync.StallingStartsLoading | src/hooks/useGlobalAudioPlayer.ts:129-170 | `loadstart`, `waiting` and `stalled` set loading and nothing else |
| ElementSync.ProgressRecordsLastRange | src/hooks/useGlobalAudioPlayer.ts:160-165 | `progress` records the end of the last buffered range, and changes nothing when none exists |
| ElementSync.SuspendAndFallback | src/hooks/useGlobalAudioPlayer.ts:88-92 | `suspend` changes nothing; the 10 s fallback ends loading only while still armed |
| ElementSync.RunSharedHandler | src/hooks/useGlobalAudioPlayer.ts:94-174 | the store becomes `FoldShared` of the old record and the element's view, and the element is untouched |
| ElementSync.SyncPlaying | src/hooks/useGlobalAudioPlayer.ts:51-63 | a playing record issues one `play()`, after which the element plays unless it was paused and the promise rejected, and a rejected play ends loading; otherwise the element is paused; source, time, volume, duration and buffered ranges are kept |
| ElementSync.SyncVolume | src/hooks/useGlobalAudioPlayer.ts:65-71 | the element plays at the effective volume, so a muted record is silent; source, time, paused flag, `play()` count, duration and buffered ranges are kept |
| ElementSync.SyncSeek | src/hooks/useGlobalAudioPlayer.ts:74-81 | after the effect, element and record times are within 1 s, and the element moves only on a larger drift, onto the record's time; source, volume, paused flag, `play()` count, duration and buffered ranges are kept |
| GlobalAudioPlayer.PlayCalls | src/hooks/useGlobalAudioPlayer.ts:94-147 | the handler itself issues at most one `play()`, exactly on a readiness event that finds playback wanted; a `play()` from the play/pause effect re-running afterwards is not counted here |
| GlobalAudioPlayer.Fold | src/hooks/useGlobalAudioPlayer.ts:94-174 | other events are the shared handler; readiness ends loading, consumes the request and plays exactly when playback was wanted |
| GlobalAudioPlayer.PendingPlayHonoured | src/hooks/useGlobalAudioPlayer.ts:94-147 | a pending request is honoured by the first readiness event, whose handler issues one `play()` |
| GlobalAudioPlayer.NoRequestNoPlay | src/hooks/useGlobalAudioPlayer.ts:94-147 | without a request, readiness ends loading and issues no `play()` |
| GlobalAudioPlayer.CanPlayThroughNeverPlays | src/hooks/useGlobalAudioPlayer.ts:154-158 | `canplaythrough` only ends loading, even with a request pending |
| GlobalAudioPlayer.ReadinessAfterConsumedRequestPlaysAgain | src/hooks/useGlobalAudioPlayer.ts:94-147 | after a consumed request, the next `canplay` calls `play()` again |
| GlobalAudioPlayer.FallbackEndsLoading | src/hooks/useGlobalAudioPlayer.ts:88-92 | an armed fallback ends loading; a cancelled one changes nothing |
| GlobalAudioPlayer.OnlyDeferredPlayDiffers | src/hooks/useGlobalAudioPlayer.ts:94-174 | the global handler differs from the shared one only on a readiness event that wants playback |
| GlobalAudioPlayer.SelectThenMetadataPlays | src/hooks/useGlobalAudioPlayer.ts:94-108 | selecting a track with a request, then its metadata, leaves it playing at 0 with the reported duration |
| GlobalAudioPlayer.FoldSteps | src/hooks/useGlobalAudioPlayer.ts:94-147 | the handler is the shared step followed by the deferred-play step, as the method runs them |
| GlobalAudioPlayer.GlobalAudioPlayer.constructor | src/hooks/useGlobalAudioPlayer.ts:26-36 | no element, no handlers, no timer |
| GlobalAudioPlayer.GlobalAudioPlayer.Mount | src/hooks/useGlobalAudioPlayer.ts:26-36 | the element is created once and kept afterwards |
| GlobalAudioPlayer.GlobalAudioPlayer.SyncSource | src/hooks/useGlobalAudioPlayer.ts:39-48 | a different URL is bound, which pauses the element, rewinds it to 0 and clears its duration and buffered ranges, and the record's transport fields are reset; an equal or missing URL changes neither the element nor the record |
| GlobalAudioPlayer.GlobalAudioPlayer.SyncPlaying | src/hooks/useGlobalAudioPlayer.ts:51-63 | one `play()` when the record plays, after which the element plays unless it was paused and the promise rejected; otherwise `pause()`; a rejected play ends loading; source, time, volume, duration and buffered ranges are kept |
| GlobalAudioPlayer.GlobalAudioPlayer.SyncVolume | src/hooks/useGlobalAudioPlayer.ts:65-71 | the element gets the effective volume, 0 when muted; source, time, paused flag, `play()` count, duration and buffered ranges are kept |
| GlobalAudioPlayer.GlobalAudioPlayer.SyncSeek | src/hooks/useGlobalAudioPlayer.ts:74-81 | element and record times end within 1 s; the element moves only on a larger drift, and then onto the record's time; source, volume, paused flag, `play()` count, duration and buffered ranges are kept |
| GlobalAudioPlayer.GlobalAudioPlayer.AttachHandlers | src/hooks/useGlobalAudioPlayer.ts:84-187 | handlers and a fresh fallback exist exactly when there is an element and a track with a URL |
| GlobalAudioPlayer.GlobalAudioPlayer.DetachHandlers | src/hooks/useGlobalAudioPlayer.ts:189-202 | handlers and timer are gone and the element is kept |
| GlobalAudioPlayer.GlobalAudioPlayer.DisarmIfCleared | src/hooks/useGlobalAudioPlayer.ts:94-158 | the timer survives only events that do not clear it |
| GlobalAudioPlayer.GlobalAudioPlayer.StartDeferredPlay | src/hooks/useGlobalAudioPlayer.ts:100-105 | marks playing, consumes the request and calls `play()` once, after which the element plays unless it was paused and the promise rejected; source, volume, time, duration and buffered ranges are kept |
| GlobalAudioPlayer.GlobalAudioPlayer.HandleEvent | src/hooks/useGlobalAudioPlayer.ts:94-174 | with handlers attached the record becomes `Fold` of the old one, the handler issues `PlayCalls` calls of `play()` and the element plays after one unless the promise rejected, with source, volume, time, duration and buffered ranges kept; without handlers neither record nor element changes |
| ReduxAudioPlayer.Fold | src/components/player/hooks/useReduxAudioPlayer.ts:71-133 | exactly the shared handler: this hook never calls `play()` from an event |
| ReduxAudioPlayer.ReadinessNeverPlays | src/components/player/hooks/useReduxAudioPlayer.ts:71-106 | readiness ends loading and leaves the playing flag and the request alone |
| ReduxAudioPlayer.PendingRequestSurvivesReadiness | src/components/player/hooks/useReduxAudioPlayer.ts:71-117 | a request made before readiness stays pending under this hook |
| ReduxAudioPlayer.AttachResetsTime | src/components/player/hooks/useReduxAudioPlayer.ts:63 | attaching the handlers resets the transport fields, so time is 0 |
| ReduxAudioPlayer.ReduxAudioPlayer.constructor | src/components/player/hooks/useReduxAudioPlayer.ts:58-69 | the hook with its element, no handlers attached |
| ReduxAudioPlayer.ReduxAudioPlayer.SyncPlaying | src/components/player/hooks/useReduxAudioPlayer.ts:24-37 | one `play()` when the record plays, after which the element plays unless it was paused and the promise rejected; otherwise `pause()`; a rejected play ends loading; source, time, volume, duration and buffered ranges are kept |
| ReduxAudioPlayer.ReduxAudioPlayer.SyncVolume | src/components/player/hooks/useReduxAudioPlayer.ts:40-45 | the element gets the effective volume, 0 when muted; source, time, paused flag, `play()` count, duration and buffered ranges are kept |
| ReduxAudioPlayer.ReduxAudioPlayer.SyncSeek | src/components/player/hooks/useReduxAudioPlayer.ts:48-55 | element and record times end within 1 s; the element moves only on a larger drift, and then onto the record's time; source, volume, paused flag, `play()` count, duration and buffered ranges are kept |
| ReduxAudioPlayer.ReduxAudioPlayer.AttachHandlers | src/components/player/hooks/useReduxAudioPlayer.ts:58-147 | resets the record's transport fields and arms the fallback when a track with a URL is bound |
| ReduxAudioPlayer.ReduxAudioPlayer.DetachHandlers | src/components/player/hooks/useReduxAudioPlayer.ts:148-161 | handlers and timer are gone |
| ReduxAudioPlayer.ReduxAudioPlayer.HandleEvent | src/components/player/hooks/useReduxAudioPlayer.ts:71-133 | with handlers attached the record becomes `Fold` of the old one, and the element is untouched |
| LocalAudioPlayer.Clamp01 | src/components/player/hooks/useAudioPlayer.ts:64-74 | the result lies in [0, 1] and equals the input when the input does |
| LocalAudioPlayer.Clamp01Idempotent | src/components/player/hooks/useAudioPlayer.ts:64-74 | clamping twice is clamping once |
| LocalAudioPlayer.Fold | src/components/player/hooks/useAudioPlayer.ts:123-178 | the hook's own record after each handled event, `progress` recording the last buffered end when there is one; unhandled events change nothing |
| LocalAudioPlayer.EventsKeepAudibleVolume | src/components/player/hooks/useAudioPlayer.ts:123-178 | no event changes volume or mute |
| LocalAudioPlayer.TimeUpdateTracksElementExactly | src/components/player/hooks/useAudioPlayer.ts:132-134 | every time update copies the element's time, with no tolerance |
| LocalAudioPlayer.LocalAudioPlayer.constructor | src/components/player/hooks/useAudioPlayer.ts:10-18 | the initial record, with the element the page rendered |
| LocalAudioPlayer.LocalAudioPlayer.TogglePlayPause | src/components/player/hooks/useAudioPlayer.ts:32-47 | pauses when playing; otherwise one `play()`, after which the element plays unless it was paused and the promise rejected, and the record is marked playing only when the play succeeds; source, time, volume, duration and buffered ranges are kept |
| LocalAudioPlayer.LocalAudioPlayer.HandleSeek | src/components/player/hooks/useAudioPlayer.ts:49-54 | element and record both move to the time; source, paused flag, volume, `play()` count, duration and buffered ranges are kept |
| LocalAudioPlayer.LocalAudioPlayer.ToggleMute | src/components/player/hooks/useAudioPlayer.ts:56-62 | flips mute; the element is silent or back at the stored volume, which is kept; source, paused flag, time, `play()` count, duration and buffered ranges are kept |
| LocalAudioPlayer.LocalAudioPlayer.SetVolume | src/components/player/hooks/useAudioPlayer.ts:64-74 | stores and applies the clamped value, muted exactly when it is 0; source, paused flag, time, `play()` count, duration and buffered ranges are kept |
| LocalAudioPlayer.LocalAudioPlayer.SkipForward | src/components/player/hooks/useAudioPlayer.ts:76-90 | by 15 s unless told otherwise, from the element's time, not past the element's or else the record's duration; source, paused flag, volume, `play()` count, duration and buffered ranges are kept |
| LocalAudioPlayer.LocalAudioPlayer.SkipBackward | src/components/player/hooks/useAudioPlayer.ts:92-105 | by 15 s unless told otherwise, from the element's time, not before 0; source, paused flag, volume, `play()` count, duration and buffered ranges are kept |
| LocalAudioPlayer.LocalAudioPlayer.TrackChanged | src/components/player/hooks/useAudioPlayer.ts:108-121 | with an element and a track URL the element is rewound and the record stops, resetting its transport fields; otherwise nothing changes; source, paused flag, volume, `play()` count, duration and buffered ranges are kept |
| LocalAudioPlayer.LocalAudioPlayer.HandleEvent | src/components/player/hooks/useAudioPlayer.ts:123-178 | with handlers attached the record becomes `Fold` of the old one |
| PlayerIntents.TogglePlaying | src/components/player/AudioPlayer.tsx:119-121 | only `isPlaying` changes, to its negation |
| PlayerIntents.ToggleMuted | src/components/player/AudioPlayer.tsx:133-135 | only `isMuted` changes, to its negation; volume is kept |
| PlayerIntents.SkipForward | src/components/player/AudioPlayer.tsx:123-127 | only the time changes, to the forward target bounded by the duration |
| PlayerIntents.SkipBackward | src/components/player/AudioPlayer.tsx:128-131 | only the time changes, to the backward target bounded by 0 |
| PlayerIntents.Seek | src/components/player/AudioPlayer.tsx:115-117 | only the time changes, to the value given |
| Skips.ForwardTarget | src/components/player/components/MiniAudioPlayer.tsx:41-45 | never past the end, and exactly `t + seconds` when that fits |
| Skips.BackwardTarget | src/components/player/components/MiniAudioPlayer.tsx:46-49 | never below 0, and exactly `t - seconds` when that is not negative |
| Skips.ForwardWithoutDurationRewinds | src/components/player/components/MobileMiniAudioPlayer.tsx:26-30 | with no duration known, skipping forward from a non-negative time gives 0 |
| Skips.SkipRoundTrip | src/components/player/components/MiniAudioPlayer.tsx:41-49 | a skip that stays inside the track is undone by the opposite skip |
| Skips.ForwardStaysInTrack | src/components/player/components/MiniAudioPlayer.tsx:41-45 | a forward skip from inside [0, end] stays inside it |
| Skips.BackwardNeverAdvances | src/components/player/components/MiniAudioPlayer.tsx:46-49 | a backward skip never moves forward |
| Skips.MiniPlayerExample | src/components/player/components/MiniAudioPlayer.tsx:41-49 | from 10 s in a 60 s track, +15 then -15 comes back to 10 s |
| FullPlayer.ScreenFor | src/components/player/AudioPlayer.tsx:141-174 | loading first, then the error, then the track or "Track data unavailable" |
| FullPlayer.ControlsDisabled | src/components/player/AudioPlayer.tsx:227 | disabled while loading; otherwise disabled exactly when the track has no URL |
| FullPlayer.NoUrlAlwaysDisabled | src/components/player/AudioPlayer.tsx:227 | controls are disabled exactly while loading or when the track has no URL |
| FullPlayer.LoadOutcome | src/components/player/AudioPlayer.tsx:56-110 | a missing id fails with its message, an id matching the current track reuses it; otherwise a throwing lookup fails with the load-failed message, a miss with the not-found message, and a hit loads the service's track for that id |
| FullPlayer.CurrentTrackReused | src/components/player/AudioPlayer.tsx:64-68 | a current track under the id is reused whatever the lookup would do |
| FullPlayer.CatalogueIdsLoad | src/components/player/AudioPlayer.tsx:74-104 | every catalogue track that is not current loads when the lookup works |
| FullPlayer.FullPlayerPage.constructor | src/components/player/AudioPlayer.tsx:39-41 | the page starts loading with no track and no error |
| FullPlayer.FullPlayerPage.LoadTrack | src/components/player/AudioPlayer.tsx:56-110 | the page and the store follow `LoadOutcome`: only a fresh load is dispatched, and the screen shows the outcome |
| AudioTrackService.GetTrackById | src/components/player/services/audioTrackService.ts:62-66 | the catalogue track with the id, None when there is none |
| AudioTrackService.GetAllTracks | src/components/player/services/audioTrackService.ts:68-71 | the four catalogue tracks in order |
| AudioTrackService.CatalogueFacts | src/components/player/services/audioTrackService.ts:4-59 | ids "1" to "4", distinct, each track with a URL |
| AudioTrackService.LookupFindsEveryListedTrack | src/components/player/services/audioTrackService.ts:62-71 | every listed track is what the lookup returns for its id |
| AudioTrackService.UnknownIdNotFound | src/components/player/services/audioTrackService.ts:62-66 | ids other than "1" to "4" are not found |
| AudioTrackService.ValidateAudioUrl | src/components/player/services/audioTrackService.ts:73-111 | false without an http(s) scheme; with one, true exactly for a 2xx reply, and true whenever the HEAD request failed or was aborted |
| AudioTrackService.HasHttpScheme | src/components/player/services/audioTrackService.ts:77-80 | an accepted URL is longer than seven characters and starts with "http"; a bare scheme is rejected |
| AudioTrackService.FalseOnlyForBadSchemeOrStatus | src/components/player/services/audioTrackService.ts:77-110 | a false verdict means a bad scheme or a reply outside 2xx |
| AudioTrackService.SchemeExamples | src/components/player/services/audioTrackService.ts:77-80 | no scheme, an ftp URL, a bare scheme and a scheme followed by a newline are refused; `http://x` is accepted |
| MiniPlayer.Render | src/components/player/components/MiniAudioPlayer.tsx:21-28 | nothing without a track or while hidden; otherwise the mobile bar or the desktop card by screen size |
| MiniPlayer.AuthorLabel | src/components/player/components/MobileMiniAudioPlayer.tsx:135 | the author, or a placeholder when it is empty |
| MiniPlayer.RouteId | src/components/player/components/MobileMiniAudioPlayer.tsx:36-39 | a route it accepts is the full-player prefix followed by the id |
| MiniPlayer.RouteRoundTrip | src/components/player/components/MobileMiniAudioPlayer.tsx:36-39 | the route for an id gives the same id back |
| MiniPlayer.Close | src/components/player/components/MiniAudioPlayer.tsx:114-118 | stops playback and hides the mini player, nothing else |
| MiniPlayer.CloseHidesAndStops | src/components/player/components/MobileMiniAudioPlayer.tsx:64-67 | after closing nothing plays or renders and the track is kept |
| MiniPlayer.OpenFullPlayer | src/components/player/components/MiniAudioPlayer.tsx:96-100 | hides the mini player and returns the current track's full-player route |
| MiniPlayer.MaximizeReusesCurrentTrack | src/components/player/components/MiniAudioPlayer.tsx:96-100 | the page opened by maximize reuses the current track |
| ProgressBar.Percent | src/components/player/components/ProgressBar.tsx:26-29 | the share of `x` in `d`, in percent, within [0, 100] inside the track |
| ProgressBar.OrZeroClock | src/components/player/components/ProgressBar.tsx:57 | a non-empty clock is kept; the empty one becomes "0:00" |
| ProgressBar.Bar | src/components/player/components/ProgressBar.tsx:20-57 | disabled while loading; with no duration a placeholder range of 100 and empty fills; the caption is time over duration |
| ProgressBar.BarWithinRange | src/components/player/components/ProgressBar.tsx:26-29 | a position inside the track gives a thumb in range and fills between 0 and 100 |
| ProgressBar.BarFullAtEnd | src/components/player/components/ProgressBar.tsx:26-29 | at the end of the track the bar is full |
| PlaylistDetail.View | src/components/PlaylistDetail.tsx:41-61 | the page renders a playlist exactly for a known id, else "not found" |
| PlaylistDetail.OnlyKnownPlaylistRenders | src/components/PlaylistDetail.tsx:41-61 | only "p5" opens a playlist page |
| PlaylistDetail.PlayTrackOutcome | src/components/PlaylistDetail.tsx:63-69 | the row's track is current, playing and shown, with no request pending |
| PlaylistDetail.PlayTrackAgainRestarts | src/components/PlaylistDetail.tsx:63-69 | pressing play on the playing row starts it over from 0 |
| PlaylistDetail.PlayTrackIsUndoneByRebind | src/components/PlaylistDetail.tsx:63-69 | under the global coordinator, the rebind and the first readiness event leave the track stopped |
| PlaylistDetail.DeferredPlayTrackStarts | src/components/PlaylistDetail.tsx:63-69 | with the request left pending, the track survives the rebind and starts on the first readiness event |
| PlaylistDetail.PlaylistDetailPage.constructor | src/components/PlaylistDetail.tsx:41 | no row started yet |
| PlaylistDetail.PlaylistDetailPage.HandlePlayTrack | src/components/PlaylistDetail.tsx:63-69 | the store becomes the three actions applied in order, and the row is remembered |
| PlaylistDetail.PlaylistDetailPage.HandlePlayTrackDeferred | src/components/PlaylistDetail.tsx:63-69 | as above, with a pending request instead of `setPlaying(true)` |
| AISuggestions.SelectOutcome | src/components/AISuggestions.tsx:70-74 | the selected track is current with a request pending, shown, and not yet playing |
| AISuggestions.PlayPauseCurrentToggles | src/components/AISuggestions.tsx:76-85 | on the current track the button only negates `isPlaying` |
| AISuggestions.PlayPauseOtherSelects | src/components/AISuggestions.tsx:76-85 | on any other track the button is a selection |
| AISuggestions.SelectionStartsWhenReady | src/components/AISuggestions.tsx:70-74 | under the global coordinator the selection survives the rebind and starts on the first readiness event |
| AISuggestions.PauseIconFollowsRecord | src/components/AISuggestions.tsx:189-190 | toggling the current row flips its icon; selecting another row never shows pause on it |
| AISuggestions.SuggestionsPanel.constructor | src/components/AISuggestions.tsx:45-59 | no suggestions, hidden, not loading, no error |
| AISuggestions.SuggestionsPanel.GetSuggestions | src/components/AISuggestions.tsx:45-59 | a success shows the tracks; a failure empties the list and shows the error |
| AISuggestions.SuggestionsPanel.ButtonClick | src/components/AISuggestions.tsx:61-68 | a shown list is hidden with no request; otherwise a request is made and loading ends: on success the list becomes the fetched tracks and shows, with no error, so it is visible exactly when non-empty; on failure it is emptied, stays hidden and carries the error message |
| AISuggestions.SuggestionsPanel.SelectTrack | src/components/AISuggestions.tsx:70-74 | the store becomes the selection's three actions |
| AISuggestions.SuggestionsPanel.PlayPause | src/components/AISuggestions.tsx:76-85 | the store toggles on the current track and selects any other |
| LegacyPlayer.Lookup | src/components/AudioPlayer.tsx:42-75 | the page's own list: a track exactly for the ids it holds |
| LegacyPlayer.LookupFindsOnlyTwo | src/components/AudioPlayer.tsx:75 | only "1" and "2" are found |
| LegacyPlayer.Fold | src/components/AudioPlayer.tsx:85-103 | the page state after its four handled events; the others change nothing |
| LegacyPlayer.EventsNeverStartPlayback | src/components/AudioPlayer.tsx:85-103 | no event starts playback or starts loading again |
| LegacyPlayer.MetadataEnablesPlay | src/components/AudioPlayer.tsx:373 | after metadata the play button is enabled for a track with a URL |
| LegacyPlayer.LegacyAudioPlayer.constructor | src/components/AudioPlayer.tsx:34-39 | the page's state for the route id, loading, stopped at 0 |
| LegacyPlayer.LegacyAudioPlayer.AttachHandlers | src/components/AudioPlayer.tsx:78-115 | handlers attach when there is an element and a track with a URL |
| LegacyPlayer.LegacyAudioPlayer.TogglePlayPause | src/components/AudioPlayer.tsx:125-142 | pauses or plays the element and flips the flag whatever `play()` does; source, time, volume, duration and buffered ranges are kept |
| LegacyPlayer.LegacyAudioPlayer.HandleSeek | src/components/AudioPlayer.tsx:144-152 | element and state move to the time; source, paused flag, volume, `play()` count, duration and buffered ranges are kept |
| LegacyPlayer.LegacyAudioPlayer.ToggleMute | src/components/AudioPlayer.tsx:163-173 | the element goes silent or back to the fixed volume; source, paused flag, time, `play()` count, duration and buffered ranges are kept |
| LegacyPlayer.LegacyAudioPlayer.SkipForward | src/components/AudioPlayer.tsx:175-182 | only the element's time moves, not past the duration; source, paused flag, volume, `play()` count, duration and buffered ranges are kept |
| LegacyPlayer.LegacyAudioPlayer.SkipBackward | src/components/AudioPlayer.tsx:184-191 | only the element's time moves, not before 0; source, paused flag, volume, `play()` count, duration and buffered ranges are kept |
| LegacyPlayer.LegacyAudioPlayer.HandleEvent | src/components/AudioPlayer.tsx:85-103 | with handlers attached the state becomes `Fold` of the old one |
| Trending.Fold | src/components/TrendingSection.tsx:104-136 | the cards' state after a time, metadata, ended, play or pause event |
| Trending.AtMostOnePauseIcon | src/components/TrendingSection.tsx:227-236 | at most one card shows pause, and none after the track ends |
| Trending.ProgressValue | src/components/TrendingSection.tsx:265 | 0 while the duration is 0, else the share of time in percent |
| Trending.ProgressWithinBounds | src/components/TrendingSection.tsx:265 | inside the track the value lies in [0, 100] |
| Trending.TimeLabel | src/components/TrendingSection.tsx:252 | the running clock on the current card, the listed length elsewhere |
| Trending.TrendingSection.constructor | src/components/TrendingSection.tsx:104-109 | mounting creates the section's own element, paused with no source |
| Trending.TrendingSection.TogglePlay | src/components/TrendingSection.tsx:138-169 | another card binds its source (the empty one when it has none), which pauses and rewinds the element and clears its duration and buffered ranges, issues one `play()` and becomes current, playing exactly when the promise resolves; on the current card a paused element gets one `play()` and a playing one is paused, with source, time, duration, buffered ranges and state left alone; volume is always kept |
| Trending.PressAgainAfterRejectedPlay | src/components/TrendingSection.tsx:143-165 | a card whose first `play()` was rejected is current but not playing; pressing it again issues a second `play()`, which alone decides whether the element plays |
| Trending.TrendingSection.Seek | src/components/TrendingSection.tsx:171-175 | only the element's time moves, to the percentage of the duration, and only once a duration is known; source, paused flag, duration, buffered ranges, volume and `play()` count are kept |
| Trending.TrendingSection.HandleEvent | src/components/TrendingSection.tsx:104-136 | the state becomes `Fold` of the old one and the element's readings |
| Trending.SeekStaysInTrack | src/components/TrendingSection.tsx:171-175 | a percentage in [0, 100] lands inside the track |
| TimeFormat.Trunc | src/components/player/AudioPlayer.tsx:49-50 | the integer part, rounded toward zero |
| TimeFormat.Rem60 | src/components/player/AudioPlayer.tsx:50 | the truncating remainder: sign of the dividend, magnitude below 60 |
| TimeFormat.PadStart2 | src/components/player/AudioPlayer.tsx:51 | at least two characters, the input kept at the end |
| TimeFormat.Clock | src/components/player/AudioPlayer.tsx:49-51 | never shorter than "0:00", and starting with a minus sign exactly for a negative time |
| TimeFormat.FormatTime | src/components/player/AudioPlayer.tsx:47-52 | every non-finite input shows "0:00"; a finite one the clock |
| TimeFormat.FormatTimeTrending | src/components/TrendingSection.tsx:184-191 | 0 and NaN show "0:00"; other inputs the clock |
| TimeFormat.FormatTimeUnguarded | src/components/AudioPlayer.tsx:119-123 | the clock on every input, with no guard |
| TimeFormat.VariantsAgreeOnFinite | src/components/TrendingSection.tsx:184-191 | the three variants agree on finite input and differ only on non-finite input |
| TimeFormat.SecondsRoundTrip | src/components/player/AudioPlayer.tsx:50-51 | seconds below a minute read back from their two digits |
| TimeFormat.FormatTimeRoundTrip | src/components/player/AudioPlayer.tsx:47-52 | a non-negative time reads back as its whole minutes and whole seconds |
| TimeFormat.NegativeTimeRendering | src/components/AudioPlayer.tsx:119-123 | -5 s shows as "-1:-5" |
| Text.ToLower | src/utils/playlistData.ts:224-228 | same length, each ASCII capital lowered |
| Text.ToLowerIdempotent | src/services/geminiService.ts:66-70 | lowering twice is lowering once |
| Text.Includes | src/services/geminiService.ts:66-70 | a needle at the start of the haystack is included, and nothing longer than the haystack is |
| Text.IncludesLonger | src/services/geminiService.ts:66-70 | a needle longer than the haystack is never included |
| Text.Trim | src/services/geminiService.ts:46 | only white space is removed, from both ends: the result is an infix of the input with nothing but white space before and after it, it neither starts nor ends with white space, and it is empty exactly when the input is all white space |
| Text.TrimKeepsCharacters | src/services/geminiService.ts:61 | every character of the trimmed string is in the input |
| Text.TrimUnchanged | src/services/geminiService.ts:61 | a string without white space at its ends is its own trim |
| Text.Split | src/services/geminiService.ts:59-60 | the pieces contain no separator, and joining them gives the input back |
| Text.SplitJoin | src/services/geminiService.ts:59-60 | pieces without the separator, joined and split, come back unchanged |
| Text.RemoveAll | src/services/geminiService.ts:61 | every kept character occurs as often as in the input and every removed one not at all |
| Text.RemoveAllAppend | src/services/geminiService.ts:61 | removal distributes over concatenation, so the kept characters stay in input order |
| Text.RemoveAllSingle | src/services/geminiService.ts:61 | one character is kept exactly when it is not to be removed |
| Text.RemoveAllAbsent | src/services/geminiService.ts:61 | removing characters that do not occur changes nothing |
| Text.NatToDecimal | src/components/player/AudioPlayer.tsx:51 | decimal digits without leading zeros |
| Text.IntToDecimal | src/components/AudioPlayer.tsx:122 | a non-negative number is its decimal digits; a negative one is a minus sign followed by the digits of its magnitude |
| Text.IntToDecimalRoundTrip | src/components/AudioPlayer.tsx:122 | reading the rendering back, minus sign included, gives the number |
| Text.ParseNatToDecimal | src/components/player/AudioPlayer.tsx:51 | reading the decimal rendering back gives the number |
| PlaylistData.Slice | src/utils/playlistData.ts:209 | `slice` with both bounds clamped to the length |
| PlaylistData.SampleIds | src/utils/playlistData.ts:29-194 | the sample ids in order; there is no "t6" |
| PlaylistData.SampleIdsDistinct | src/utils/playlistData.ts:29-194 | no two sample tracks share an id |
| PlaylistData.PlaylistCountDisagrees | src/utils/playlistData.ts:204-209 | the playlist holds seven tracks while its stored count says 8 |
| PlaylistData.FindPlaylist | src/utils/playlistData.ts:216-218 | the first playlist with the id, None exactly when none has it |
| PlaylistData.GetPlaylistById | src/utils/playlistData.ts:216-218 | the sample playlist with the id |
| PlaylistData.OnlyP5 | src/utils/playlistData.ts:197-218 | "p5" is the only playlist id |
| PlaylistData.KeepByIds | src/utils/playlistData.ts:220-222 | exactly the tracks whose id is queried, in catalogue order |
| PlaylistData.KeepByIdsAppend | src/utils/playlistData.ts:220-222 | filtering distributes over concatenation |
| PlaylistData.KeepByIdsOnlySetMatters | src/utils/playlistData.ts:220-222 | only the set of queried ids matters, not their order or repetition |
| PlaylistData.GetTracksByIds | src/utils/playlistData.ts:220-222 | the sample tracks whose id is queried |
| PlaylistData.DuplicateIdsAddNothing | src/utils/playlistData.ts:220-222 | a repeated query id adds nothing |
| PlaylistData.KeepByIdsAll | src/utils/playlistData.ts:220-222 | querying every id keeps every track |
| PlaylistData.KeepByIdsNone | src/utils/playlistData.ts:220-222 | querying no listed id keeps nothing |
| PlaylistData.PlaylistTracksResolve | src/utils/playlistData.ts:209-222 | resolving the playlist's own ids gives back exactly its tracks, in order |
| PlaylistData.KeepByTag | src/utils/playlistData.ts:224-228 | exactly the playlists with a tag containing the query, ignoring case, in order |
| PlaylistData.KeepByTagAppend | src/utils/playlistData.ts:224-228 | filtering by tag distributes over concatenation |
| PlaylistData.GetPlaylistsByTag | src/utils/playlistData.ts:224-228 | the sample playlists matching the tag |
| PlaylistData.EmptyTagKeepsTagged | src/utils/playlistData.ts:224-228 | the empty query keeps exactly the playlists with at least one tag |
| PlaylistData.TagQueryIgnoresCase | src/utils/playlistData.ts:224-228 | "ai" finds the playlist tagged "AI" |
| GeminiService.GetAllTracks | src/services/geminiService.ts:13-19 | the loop gives every playlist's tracks, playlist after playlist |
| GeminiService.Concat | src/services/geminiService.ts:13-19 | a track is in the result exactly when it is in one of the playlists |
| GeminiService.SampleAllTracks | src/services/geminiService.ts:13-19 | the service sees the seven tracks t8 to t14, with distinct ids |
| GeminiService.CleanTitle | src/services/geminiService.ts:61 | no quote or bracket left, and only characters of the piece |
| GeminiService.FallbackTitles | src/services/geminiService.ts:59-61 | one cleaned title per comma-separated piece |
| GeminiService.PlainTitleIsClean | src/services/geminiService.ts:61 | cleaning leaves a plain title alone |
| GeminiService.CleanFixedPoint | src/services/geminiService.ts:61 | cleaning a plain title is the identity |
| GeminiService.FallbackRoundTrip | src/services/geminiService.ts:59-61 | plain titles joined with commas read back as exactly those titles |
| GeminiService.Titles | src/services/geminiService.ts:48-62 | the parsed array when there is one, else the fallback reading |
| GeminiService.FirstMatch | src/services/geminiService.ts:66-70 | the first track whose lower-cased title contains the title or is contained in it |
| GeminiService.TitleMatches | src/services/geminiService.ts:66-70 | titles equal up to case match, and the empty title matches every track |
| GeminiService.MatchStep | src/services/geminiService.ts:66-74 | the list only grows, by at most one track: the title's first match, appended exactly when its id is not yet picked; distinct ids stay distinct |
| GeminiService.MatchFrom | src/services/geminiService.ts:64-75 | the loop only appends tracks of the list, keeps ids distinct and never grows a list past three |
| GeminiService.EmptyTitleMatchesFirst | src/services/geminiService.ts:66-70 | an empty title matches the first track |
| GeminiService.MatchFromGood | src/services/geminiService.ts:64-75 | the match loop keeps the pick list distinct, at most three and from the list, and only appends |
| GeminiService.MatchTitles | src/services/geminiService.ts:64-75 | the loop computes `MatchFrom` over the titles, stopping at three |
| GeminiService.Unused | src/services/geminiService.ts:78-80 | exactly the tracks whose id is not yet picked |
| GeminiService.TopUp | src/services/geminiService.ts:77-85 | keeps the picks good and extends them until three or nothing is unused |
| GeminiService.TopUpReachesThree | src/services/geminiService.ts:77-85 | with three distinct ids available the top-up reaches three |
| GeminiService.SelectSuggestions | src/services/geminiService.ts:64-87 | exactly three distinct tracks from the list, beginning with the matches |
| GeminiService.GetTrackSuggestions | src/services/geminiService.ts:21-91 | a missing key and a failed request are errors; a reply gives three distinct playlist tracks beginning with the matches |
| Draggable.OrDefault | src/hooks/useDraggable.ts:23 | a missing option takes its default |
| Draggable.Clamp | src/hooks/useDraggable.ts:42-43 | never negative, never past `viewport - player`, 0 when the player does not fit, unchanged when in range |
| Draggable.ClampPosition | src/hooks/useDraggable.ts:100-103 | each axis clamped against its own viewport and extent |
| Draggable.ClampIdempotent | src/hooks/useDraggable.ts:42-43 | clamping twice is clamping once |
| Draggable.ClampedIsInBounds | src/hooks/useDraggable.ts:100-103 | every clamped position is in bounds |
| Draggable.InBoundsMeans | src/hooks/useDraggable.ts:100-103 | in bounds means inside [0, viewport - player] on each axis, or at 0 when the player does not fit |
| Draggable.PressPointKeepsPosition | src/hooks/useDraggable.ts:78-106 | moving back to the press point leaves an in-bounds position where it was |
| Draggable.DragFollowsMouse | src/hooks/useDraggable.ts:90-106 | inside the viewport the player moves by exactly the mouse's displacement |
| Draggable.DraggablePlayer.constructor | src/hooks/useDraggable.ts:23-29 | options take their defaults; the position starts at the origin, not dragging |
| Draggable.DraggablePlayer.SetInitialPosition | src/hooks/useDraggable.ts:32-53 | the configured start, clamped, and in bounds |
| Draggable.DraggablePlayer.LoadSavedPosition | src/hooks/useDraggable.ts:56-71 | a saved position, clamped to the viewport, replaces the current one |
| Draggable.DraggablePlayer.MouseDown | src/hooks/useDraggable.ts:78-85 | a drag starts and records the grab offset |
| Draggable.DraggablePlayer.MouseMove | src/hooks/useDraggable.ts:90-106 | while dragging the player follows the grab point and stays in bounds; otherwise nothing moves |
| Draggable.DraggablePlayer.MouseUp | src/hooks/useDraggable.ts:108-113 | a drag ends and saves the position; otherwise nothing changes |
| Draggable.ClickWithoutMoving | src/hooks/useDraggable.ts:73-113 | press, move back and release keep an in-bounds position and save it |
| NewTrend.KeepCategory | src/components/NewTrendSection.tsx:182 | exactly the cards of the category |
| NewTrend.KeepCategoryAppend | src/components/NewTrendSection.tsx:182 | filtering distributes over concatenation, so order is kept |
| NewTrend.FilteredCards | src/components/NewTrendSection.tsx:179-182 | the first tab shows all cards, another tab those of its topic, a tab past the topics none |
| NewTrend.EachTopicHasOneCard | src/components/NewTrendSection.tsx:13-92 | each topic tab shows exactly the one card of its topic |
| NewTrend.Route | src/components/NewTrendSection.tsx:207 | audio cards route to the audio player, others to the video player, with the card id |
| NewTrend.VideoRouteId | src/components/player/VideoPlayer.tsx:134-139 | a route it accepts is the video prefix followed by the id |
| NewTrend.RouteRoundTrip | src/components/NewTrendSection.tsx:207 | a click reaches exactly one player and gives it the card's id back |
| NewTrend.AudioCardsOpenCatalogueTracks | src/components/NewTrendSection.tsx:23-92 | every audio card opens a track the full player can load |
| NewTrend.TypeLabel | src/components/NewTrendSection.tsx:220 | same length, first character upper-cased, the rest kept |
| NewTrend.TypeLabels | src/components/NewTrendSection.tsx:220 | "Audio" and "Video", and lowering a label gives the kind back |
| VideoPlayer.FindVideo | src/components/player/VideoPlayer.tsx:146 | the first video with the id, None exactly when none has it |
| VideoPlayer.KnownVideos | src/components/player/VideoPlayer.tsx:20-54 | exactly the ids "1", "2" and "3" resolve, each to its own video |
| VideoPlayer.EmbedUrl | src/components/player/VideoPlayer.tsx:252 | the embed prefix, the video id, then the autoplay suffix |
| VideoPlayer.WatchUrl | src/components/player/VideoPlayer.tsx:169-173 | the watch prefix followed by the video id |
| VideoPlayer.UrlsNameOneVideo | src/components/player/VideoPlayer.tsx:169-252 | each address names one video, and frame and link never coincide |
| VideoPlayer.ScreenFor | src/components/player/VideoPlayer.tsx:175-217 | loading first, then the error, then "Video not found", else the player for the video |
| VideoPlayer.VideoPlayerPage.constructor | src/components/player/VideoPlayer.tsx:134-160 | loading, with no video and no error |
| VideoPlayer.VideoPlayerPage.LoadVideo | src/components/player/VideoPlayer.tsx:134-160 | a missing or unknown id sets its error and keeps the old video; the player shows exactly for a known id |
| VideoPlayer.VideoPlayerPage.OpenInYouTube | src/components/player/VideoPlayer.tsx:169-173 | the watch link of the loaded video, and nothing without one |

## Left out

- The network and foreign services are inputs, not models:
  - the HEAD request of `validateAudioUrl`;
  - the generative-model SDK and its prompt;
  - `JSON.parse`, given as an optional array of strings. An array with non-string elements is not
    modelled.
- `Math.random` in the suggestion top-up is an arbitrary choice (`:|`). The model proves what
  holds for every choice.
- Browser storage is the draggable player's `saved` field. Writes to the key from elsewhere and a
  stored value that fails to parse are not modelled.
- Window and document sizes are parameters. The resize listener re-runs `SetInitialPosition`.
- React's scheduling is not modelled: the order and batching of effects, re-renders and
  dependency-driven re-runs. Each effect and each handler is one atomic method call. The caller
  chooses the order.
- `Media.MediaElement.Load` applies the synchronous part of the browser's load algorithm only. The
  events the load fires later are delivered by the caller, and a `play()` racing the load is not
  modelled.
- Timers are events. The 10 s loading fallback is the `LoadTimeout` event, and the 3 s HEAD abort
  is one of the HEAD outcomes.
- Numbers are mathematical reals, not IEEE doubles. The element's NaN duration before metadata is
  0, which every guard in the code treats the same way. `formatTime` distinguishes NaN and the
  infinities through `TimeFormat.JsNumber`.
- `toLowerCase` and `toUpperCase` fold ASCII letters only.
- The trending cards' audio sources are a parameter of `Trending.TrendingSection.TogglePlay`. The
  media constants they come from are not part of this model.
- `AISuggestions.SuggestionsPanel.GetSuggestions`: does not expose the intermediate `loading`
  true state between the request and its reply, because the request is one atomic step.
- `ProgressBar`: the `parseFloat` of the slider's text value is not modelled. The seek receives
  the number.
- Display-only fields are not modelled: images, listed durations, view counts, descriptions,
  icons and styling.
- The video page's `catch` path is not modelled. Nothing inside its `try` can throw on the modelled
  inputs.
- Console output (`console.log`, `console.warn` and `console.error` in the coordinator, the
  suggestion service, the suggestions panel and the draggable player) is not modelled. It changes
  no state.
- Back navigation (`navigate(-1)`) and routing outside the ids the pages read are not modelled.
- Theming, the layout, the library and playlist grids, and the search filters are not modelled.
  They do not touch the playback record.

## Findings

| source | as written | input that shows it | evidently intended | confidence | as-written member | corrected member |
|---|---|---|---|---|---|---|
| src/components/PlaylistDetail.tsx:63-69 | a row's play button dispatches `setCurrentTrack`, `setPlaying(true)` and `setShowMiniPlayer(true)`, with no pending request; the global coordinator's source effect (src/hooks/useGlobalAudioPlayer.ts:39-48) then resets the record for the new URL, clearing `isPlaying` | any record and any track with a URL different from the bound one: after the press, the rebind and `loadedmetadata`, the record is not playing, nothing is pending and the readiness handler issues no `play()`; a `play()` the play/pause effect may issue before the reset reaches it is paused again when it re-runs, so the track ends stopped | the track starts once it is ready, as the suggestions panel's selection does by setting `pendingPlay` | low to medium, not executed; which coordinator is mounted over this page is outside the model | PlaylistDetail.PlayTrackIsUndoneByRebind | PlaylistDetail.DeferredPlayTrackStarts |
