# Lecture recorder: the recording session and the avatar initials

This project models two parts of a browser lecture recorder in Dafny and proves properties about them.

**The recording view.** The user starts microphone capture, pauses and resumes it, stops it and listens back. Then they either discard the clip or upload it with a title, a course and the recorded duration.

**The navigation bar's avatar.** It shows initials derived from the logged-in user's name.

The recording component is stateful, so the model has two layers:

- **`RecordingSession`** (`session.dfy`) gathers the component's state into one `Session` value:
  - its React state: title, `isRecording`, `isPaused`, `isProcessing`, duration, the finished blob and its object URL;
  - its refs: the recorder, the chunk list, the interval, the stream;
  - the browser facts the handlers depend on: unanswered microphone requests, intervals whose handle the ref no longer holds, queued recorder `stop` events, object URLs not yet revoked, and streams dropped while still capturing.

  Every handler and every browser callback is a step function:
  - `StartStep` (the click, up to the `await`), `AcquiredStep` (the microphone's answer), `DataAvailableStep`, `TickStep`, `PauseToggleStep`, `StopStep`, `OnStopStep`, `ResetStep`, `ProcessStep`, `SetTitleStep`;
  - `EffectCleanup`, the cleanup of the effect keyed on `audioURL`.

  `Step` and `Run` apply sequences of user actions and browser events. A user action is refused when the button's `disabled` expression holds. `Valid` is the invariant that every event keeps. `Consistent` is the stronger invariant that holds until the microphone is granted while an earlier recorder's `stop` event, or another microphone request, is still outstanding.
- **`RecordingComponent.RecordingSection`** (`recording_section.dfy`) is the component as a class. It has one field per state variable and per ref, and one method per handler and callback. Each method is proved to produce exactly its step function's new state. Small helper methods group the state changes that recur across handlers, such as setting both flags, starting or clearing the interval, stopping the tracks, and creating or revoking an object URL.
- **`SessionProperties`** (`session_props.dfy`) proves what the handlers guarantee, one event at a time and over whole event sequences.
- **`Scenarios`** (`scenarios.dfy`) drives complete sessions through the class.
- **`AppLayout`** (`initials.dfy`) models `getInitials`. **`Text`** (`text.dfy`) provides JavaScript's `trim` test, `split` on one character, and upper-casing of ASCII letters. **`Options`** (`options.dfy`) is the option type the modules share.

The environment enters as parameters and events:

- the answer of `getUserMedia`, as an `Acquired` event arriving after the click, with whether it grants the microphone (`acquireOk`);
- whether `createRecording` succeeds (`uploadOk`);
- the fragments `ondataavailable` receives;
- one `Tick` per firing of the one-second interval;
- one `OnStop` per queued recorder `stop` event, carrying the recorder's final data. The browser fires that last `dataavailable` in the same task, just before `stop`.

Object URLs are numbered in creation order.

## Behaviour modelled as written

- **Stop from Paused.** `stopRecording` checks only `isRecording`, so it also stops a paused recording (`StopOutcome`).
- **Start keeps the old clip.** `startRecording` empties the chunk list before asking for the microphone, whether or not the request succeeds. It leaves an earlier blob and URL in place (`StartOutcome`, `AcquiredOutcome`).
- **Start awaits the microphone.** Until `getUserMedia` answers, nothing records and the record button still offers to start (`StartOutcome`). So:
  - a second click makes a second request. When both are granted, the second grant overwrites the first interval's handle and drops the first stream while it captures. Stop then clears only the second interval, and the first one goes on adding seconds to the duration, even after a reset (`DoubleStartOrphansInterval`, `Scenarios.DoubleClick`);
  - a `stop` event that arrives during the wait builds its blob from the chunk list the click has just emptied. Fragments delivered before the click are lost; the recorder's final data, delivered with the `stop` event, is kept. This recorder is started without a timeslice and so delivers all its data as that final data: its clip is then complete (`StopEventDuringAcquireKeepsFinalData`, `Scenarios.RestartBeforeStopEvent`).
- **A recorder ends with its tracks.** Stopping every track of the stream a recorder captures ends the recorder: it becomes inactive and queues its own `stop` event. After that, `pause()` and `resume()` throw before the pause handler changes anything, and `stop()` does nothing (`PauseToggleOutcome`, `StopOutcome`, `OnStopOutcome`).
- **Stale clip after Reset.** A reset during a recording only queues the recorder's `stop` event. When that event arrives it sets a blob again, made of the earlier chunks and the recorder's final data, although the reset had cleared it (`StaleBlobAfterReset`).
- **Reset keeps the chunks.** The chunk list survives a reset; only the next start empties it.
- **The effect cleanup runs on every URL change.** The effect that depends on `audioURL` runs its cleanup on unmount and also whenever the URL changes:
  - when a `stop` event installs a new URL;
  - when a reset clears a shown URL.

  The cleanup clears the interval, stops the current stream and revokes the previous URL. Because of it, the URL shown is always live and is the only live one (part of `Valid`).
- **A late `stop` event ends a new recording.** Suppose a new recording is started before the previous recorder's `stop` event arrives. When that event arrives, its handler and the effect cleanup stop the new recording's stream and clear its interval. The new recorder ends with its stream and queues its own `stop` event, while the view still shows the recording as active and the pause button does nothing. The previous recorder's final data lands in the new recording's chunk list. So that second `stop` event delivers, while the view still shows it recording, a clip that starts with the previous recording's final data (`LateStopEventEndsNewRecording`). A grant while a stream is still capturing also drops that stream. No other event drops a live stream (`StepKeepsConsistent`).
- **The title is uploaded untrimmed.** It is checked only to be non-blank.

None of these cases is guarded against. The session has no state of its own for "stopped, waiting for the clip", reset leaves the chunk list in place, and a late result (a `stop` event or a granted microphone) is applied to whatever recording is current. The model follows the code.

## Model

| member | source | states |
|---|---|---|
| `Text.TrimStart` | client/src/components/RecordingSection.tsx:152 | the result is the suffix of the input left after removing its leading whitespace |
| `Text.TrimEnd` | client/src/components/RecordingSection.tsx:152 | the result is the prefix of the input left after removing its trailing whitespace |
| `Text.Trim` | client/src/components/RecordingSection.tsx:152 | no contract; `trim` is the two trims composed, and `TrimEmptyIff` states when its result is empty |
| `Text.TrimEmptyIff` | client/src/components/RecordingSection.tsx:152 | the trimmed title is empty exactly when every character is whitespace |
| `Text.ToUpper` | client/src/components/AppLayout.tsx:23 | upper-casing keeps the length and maps every character through the ASCII upper-case function |
| `Text.ToUpperAppend` | client/src/components/AppLayout.tsx:23 | upper-casing a concatenation is the concatenation of the upper-cased pieces |
| `Text.UpperChar` | client/src/components/AppLayout.tsx:25 | lower-case ASCII letters become their capitals and every other character is unchanged |
| `Text.Split` | client/src/components/AppLayout.tsx:21 | splitting on a character gives at least one part, no part holds the separator, and joining the parts with the separator gives back the input |
| `Text.SplitJoin` | client/src/components/AppLayout.tsx:21 | splitting undoes joining for separator-free parts, so split and join are inverse |
| `Text.SplitWithoutSeparator` | client/src/components/AppLayout.tsx:21-22 | a string without the separator splits into itself alone |
| `Text.SeveralPartsIff` | client/src/components/AppLayout.tsx:21-22 | there is more than one part exactly when the separator occurs |
| `Text.FirstPart` | client/src/components/AppLayout.tsx:23 | the first part is empty exactly when the input is empty or starts with the separator; otherwise it starts with the input's first character |
| `Text.LastPart` | client/src/components/AppLayout.tsx:23 | the last part is the text after the last separator |
| `AppLayout.HasName` | client/src/components/AppLayout.tsx:20 | no contract; the body is JavaScript truthiness of `user.name`: present and not empty |
| `AppLayout.FirstCharText` | client/src/components/AppLayout.tsx:23 | no contract; the body is what `${p[0]}` renders in a template literal: the first character, or the text "undefined" for an empty part. `TrailingSpaceShowsUndefined` and `SpacesAtBothEndsShowUndefinedTwice` state its effect on the initials |
| `AppLayout.Initials` | client/src/components/AppLayout.tsx:17-29 | `getInitials` is never empty, and without a display name it is a single character |
| `AppLayout.NoUserInitial` | client/src/components/AppLayout.tsx:18 | with no user the initials are "U" |
| `AppLayout.TwoWordInitials` | client/src/components/AppLayout.tsx:20-23 | a name with a space, not starting or ending with one, gives the upper-cased first character and the upper-cased character after the last space; middle words are ignored |
| `AppLayout.OneWordInitial` | client/src/components/AppLayout.tsx:25 | a non-empty name without a space gives its first character, upper-cased |
| `AppLayout.UsernameFallback` | client/src/components/AppLayout.tsx:28 | an absent or empty name gives the username's first character, upper-cased |
| `AppLayout.TrailingSpaceShowsUndefined` | client/src/components/AppLayout.tsx:23 | a name ending with a space gives its initial followed by the text "UNDEFINED" |
| `AppLayout.SpacesAtBothEndsShowUndefinedTwice` | client/src/components/AppLayout.tsx:23 | a name that starts and ends with a space, such as a name of spaces only, gives the text "UNDEFINED" twice |
| `AppLayout.Words` | client/src/components/AppLayout.tsx:21 | the words are non-empty parts of the split, and there are no more of them than parts |
| `AppLayout.WordsKeepLast` | client/src/components/AppLayout.tsx:23 | a non-empty last part remains the last word |
| `AppLayout.LastPartNonEmpty` | client/src/components/AppLayout.tsx:23 | a string that does not end with the separator has a non-empty last part |
| `AppLayout.IntendedInitials` | client/src/components/AppLayout.tsx:17-29 | the corrected initials are always one or two characters |
| `AppLayout.IntendedAgreesOnTrimmedNames` | client/src/components/AppLayout.tsx:20-28 | when a name neither starts nor ends with a space, the corrected initials equal the code's |
| `RecordingSession.Initial` | client/src/components/RecordingSection.tsx:17-28 | the mounted state is consistent, with no blob, no live URL and the visualizer inactive |
| `RecordingSession.VisualizerActive` | client/src/components/RecordingSection.tsx:205 | no contract; the body is the active flag passed to the visualizer, `isRecording && !isPaused`. `TimerRunsWhileVisualizerActive` states its relation to the interval |
| `RecordingSession.Concat` | client/src/components/RecordingSection.tsx:64 | no contract; the body lays out the chunks' bytes in order as `new Blob(chunks)` does. `ConcatAppend` and `ConcatReceived` state how it composes |
| `RecordingSession.StartInterval` | client/src/components/RecordingSection.tsx:81-83 | writing `timerRef` leaves an interval running and never lowers the count of intervals out of reach; the body adds one to that count when the ref already held an interval, as the writes at :81 and :107 do |
| `RecordingSession.TracksStopped` | client/src/components/RecordingSection.tsx:69-71 | stopping the stream's tracks (also at :39) leaves no live stream and no capturing recorder. That a recorder whose tracks all end becomes inactive and queues its own `stop` event is the browser's rule from the MediaStream Recording specification, not code in the component |
| `RecordingSession.EffectCleanup` | client/src/components/RecordingSection.tsx:33-45 | the cleanup leaves no interval in the ref, no live stream and no capturing recorder; the body also revokes the URL of the render it belongs to |
| `RecordingSession.StartStep` | client/src/components/RecordingSection.tsx:47-51 | the click on start, up to the `await`, keeps the session invariant |
| `RecordingSession.AcquiredStep` | client/src/components/RecordingSection.tsx:51-92 | the microphone's answer, granted or refused, keeps the session invariant |
| `RecordingSession.DataAvailableStep` | client/src/components/RecordingSection.tsx:57-61 | receiving a fragment keeps the session invariant |
| `RecordingSession.TickStep` | client/src/components/RecordingSection.tsx:81-83 | a tick keeps the session invariant |
| `RecordingSession.PauseToggleStep` | client/src/components/RecordingSection.tsx:95-111 | the pause toggle keeps the session invariant, including paused-implies-recording |
| `RecordingSession.StopStep` | client/src/components/RecordingSection.tsx:113-123 | stopping keeps the session invariant |
| `RecordingSession.OnStopStep` | client/src/components/RecordingSection.tsx:57-72 | the recorder's final data is received by `ondataavailable` and then `onstop` runs: the invariant is kept, the blob is the bytes received before followed by the final data, typed `audio/webm`, and the next fresh URL is shown; in a valid session that URL is the only live one |
| `RecordingSession.StopHandlerStep` | client/src/components/RecordingSection.tsx:63-72 | `onstop` with its effect cleanup keeps the session invariant and the chunk list; the blob is the chunks' bytes typed `audio/webm`, and the next fresh URL is shown, the only live one in a valid session |
| `RecordingSession.ConcatReceived` | client/src/components/RecordingSection.tsx:57-64 | after `ondataavailable` receives a fragment, the blob bytes of the chunk list are the previous ones followed by the fragment's bytes (an empty fragment adds nothing) |
| `RecordingSession.ResetStep` | client/src/components/RecordingSection.tsx:125-140 | reset keeps the session invariant, clears the URL, revokes the shown one and leaves the chunk list as it was |
| `RecordingSession.ProcessStep` | client/src/components/RecordingSection.tsx:142-182 | processing keeps the session invariant and leaves the chunk list as it was |
| `RecordingSession.IsBlank` | client/src/components/RecordingSection.tsx:152 | no contract; the body is `!title.trim()`. `BlankTitleIff` states that it holds exactly for whitespace-only titles |
| `RecordingSession.SetTitleStep` | client/src/components/RecordingSection.tsx:196 | editing the title keeps the session invariant |
| `RecordingSession.TeardownStep` | client/src/components/RecordingSection.tsx:33-45 | no contract; the body is the effect cleanup with the URL shown at unmount. `TeardownReleasesAll` states what it releases |
| `RecordingSession.Enabled` | client/src/components/RecordingSection.tsx:197-269 | no contract; the body follows every `disabled` expression, the record button's choice between start and stop at :216, and when the browser can deliver each callback |
| `RecordingSession.Step` | client/src/components/RecordingSection.tsx:197-269 | every user action or browser event, applied when its button or trigger allows it, keeps the session invariant |
| `SessionProperties.StartOutcome` | client/src/components/RecordingSection.tsx:47-51 | the click only empties the chunks and adds a microphone request: nothing records yet, the earlier blob, URL, title and duration stay, and start is still offered |
| `SessionProperties.AcquiredOutcome` | client/src/components/RecordingSection.tsx:51-92 | a grant gives recording, unpaused, duration 0, a running interval and a live stream with a recording recorder, orphaning an interval already held and dropping a stream already live; a refusal changes neither recording, interval, duration nor stream. Either way the chunks, blob, URL and title stay |
| `SessionProperties.PauseToggleOutcome` | client/src/components/RecordingSection.tsx:95-111 | running becomes paused with the timer cleared, paused becomes running with a new timer, nothing changes without a recording or with an ended recorder, and the duration is never touched |
| `SessionProperties.TimerRunsWhileVisualizerActive` | client/src/components/RecordingSection.tsx:205 | in a consistent session the interval runs, and ticks arrive, exactly when `isRecording && !isPaused`, the visualizer's active flag |
| `SessionProperties.StopOutcome` | client/src/components/RecordingSection.tsx:113-123 | stop, from running or paused, clears `isRecording`, `isPaused` and the timer, leaves the recorder inactive, queues one `stop` event exactly when the recorder was still capturing, and keeps the duration, chunks and blob |
| `SessionProperties.StopWithoutRecording` | client/src/components/RecordingSection.tsx:114 | stop without a recording changes nothing |
| `RecordingSession.ConcatAppend` | client/src/components/RecordingSection.tsx:64 | the blob of a concatenated chunk list is the concatenation of the two blobs' bytes |
| `SessionProperties.OnStopOutcome` | client/src/components/RecordingSection.tsx:57-72 | the `stop` event appends the recorder's non-empty final data to the chunks and makes an `audio/webm` blob of the chunks' bytes in order followed by that data, with a fresh URL, the only live one. It stops the stream and the timer and revokes the replaced URL; a recorder still capturing ends and queues its own `stop` event |
| `SessionProperties.SecondStopEventRepeatsClip` | client/src/components/RecordingSection.tsx:57-64 | the chunk list survives `onstop`, so a second `stop` event's clip is the first clip's bytes followed by its own final data |
| `SessionProperties.ResetOutcome` | client/src/components/RecordingSection.tsx:125-140 | from any state, reset gives not recording, not paused, duration 0, no blob, no URL, an empty title, no live URL, no timer and no capturing recorder. The chunks are unchanged |
| `SessionProperties.ResetIdempotent` | client/src/components/RecordingSection.tsx:125-140 | resetting twice gives the same state as resetting once |
| `SessionProperties.StaleBlobAfterReset` | client/src/components/RecordingSection.tsx:126-128 | a reset during a recording clears the blob and queues a `stop` event if the recorder still captured; a queued `stop` event later sets a blob of the earlier chunks followed by the recorder's final data again |
| `SessionProperties.StopEventDuringAcquireKeepsFinalData` | client/src/components/RecordingSection.tsx:49-64 | a `stop` event arriving while the microphone is requested builds its blob from the emptied chunk list: the clip is exactly the recorder's final data |
| `SessionProperties.LateStopEventEndsNewRecording` | client/src/components/RecordingSection.tsx:63-72 | a `stop` event arriving after a new grant leaves that recording shown as active with its timer cleared, its stream stopped and its recorder ended with a `stop` event queued; the pause toggle then changes nothing, and that event delivers, while the view still shows it recording, a clip of the previous recorder's final data followed by its own |
| `SessionProperties.DoubleStartOrphansInterval` | client/src/components/RecordingSection.tsx:47-83 | two clicks and two grants orphan one interval and drop one live stream; after stop a tick is still possible, adds a second to the duration, and stays possible after a reset |
| `SessionProperties.BlankTitleIff` | client/src/components/RecordingSection.tsx:152 | a title is refused exactly when it is whitespace only |
| `SessionProperties.ProcessOutcome` | client/src/components/RecordingSection.tsx:142-182 | nothing is uploaded and nothing changes without a blob or with a blank title. Otherwise the untrimmed title, blob, course and duration are uploaded; success resets the session, failure keeps it as it was; `isProcessing` ends false |
| `SessionProperties.ResetKeepsProcessingFlag` | client/src/components/RecordingSection.tsx:162-180 | reset neither reads nor changes `isProcessing` |
| `SessionProperties.RetrySendsSameUpload` | client/src/components/RecordingSection.tsx:161-181 | after a failed upload, the retry sends exactly the same upload |
| `SessionProperties.TeardownReleasesAll` | client/src/components/RecordingSection.tsx:33-45 | unmounting clears the timer, stops the stream and leaves no object URL live |
| `SessionProperties.StepKeepsConsistent` | client/src/components/RecordingSection.tsx:47-140 | every event except a grant while a `stop` event or another microphone request is outstanding keeps the session consistent and drops no live stream |
| `SessionProperties.OrphansOnlyFromAcquired` | client/src/components/RecordingSection.tsx:81-111 | no event other than a grant changes how many intervals are out of the ref's reach |
| `SessionProperties.StopEventKeepsCounters` | client/src/components/RecordingSection.tsx:57-72 | the `stop` event, with its final data, keeps the duration, the recording flag and the count of unreachable intervals |
| `SessionProperties.StopHandlerKeepsCounters` | client/src/components/RecordingSection.tsx:63-72 | `onstop` and its effect cleanup keep the duration, the recording flag and the count of unreachable intervals |
| `SessionProperties.RunKeepsValid` | client/src/components/RecordingSection.tsx:47-182 | every sequence of events keeps the session invariant |
| `SessionProperties.StepChunks` | client/src/components/RecordingSection.tsx:57-61 | an event other than a click on start, and a `stop` event only when one is queued, adds exactly the non-empty fragment or final data it delivers |
| `SessionProperties.ChunksInDeliveryOrder` | client/src/components/RecordingSection.tsx:57-61 | until the next click on start, with every `stop` event finding one queued, the chunk list grows by exactly the delivered non-empty fragments and final data, in delivery order |
| `SessionProperties.ArtifactInDeliveryOrder` | client/src/components/RecordingSection.tsx:49-72 | after a click on start and any events with no further click, a `stop` event's blob is the bytes of everything delivered since the click in delivery order, followed by its own final data, typed `audio/webm` |
| `SessionProperties.DurationCountsActiveTicks` | client/src/components/RecordingSection.tsx:80-83 | in a consistent session, the duration grows by exactly one per tick arriving while recording and unpaused, and by nothing else |
| `SessionProperties.StoppedDurationIsUploaded` | client/src/components/RecordingSection.tsx:164 | after stop, with no interval out of reach, the duration stays frozen until a reset or a grant, and that value is the one uploaded |
| `SessionProperties.StoppedStepKeepsDuration` | client/src/components/RecordingSection.tsx:81-123 | in a stopped session with no interval out of reach, one event other than a grant, a reset or processing keeps the duration, keeps the session stopped and orphans no interval |
| `RecordingComponent.RecordingSection.constructor` | client/src/components/RecordingSection.tsx:17-28 | the mounted component is in the initial state |
| `RecordingComponent.RecordingSection.SetFlags` | client/src/components/RecordingSection.tsx:116-117 | the new state is the old one with `isRecording` and `isPaused` set, as the paired setters do here and at :76-77 and :131-132 |
| `RecordingComponent.RecordingSection.StartRecorder` | client/src/components/RecordingSection.tsx:74-80 | the new state has a recording recorder, `isRecording` set, `isPaused` cleared and the duration at zero, and nothing else changed |
| `RecordingComponent.RecordingSection.SetArtifact` | client/src/components/RecordingSection.tsx:66-67 | the new state is the old one with the URL and the blob set |
| `RecordingComponent.RecordingSection.StartTimer` | client/src/components/RecordingSection.tsx:81-83 | the new state is `StartInterval` of the old one: an interval held by the ref is orphaned |
| `RecordingComponent.RecordingSection.ClearTimer` | client/src/components/RecordingSection.tsx:119-121 | the new state is the old one with no interval in the ref |
| `RecordingComponent.RecordingSection.OpenStream` | client/src/components/RecordingSection.tsx:51-52 | the new stream is live, and a stream still live in the ref is counted as dropped |
| `RecordingComponent.RecordingSection.StopTracks` | client/src/components/RecordingSection.tsx:69-71 | the new state is `TracksStopped` of the old one |
| `RecordingComponent.RecordingSection.CreateObjectUrl` | client/src/components/RecordingSection.tsx:65 | the URL returned is the next fresh one, and it becomes live |
| `RecordingComponent.RecordingSection.Revoke` | client/src/components/RecordingSection.tsx:137-139 | the given URL, if any, is no longer live, and nothing else changes |
| `RecordingComponent.RecordingSection.ShowBlob` | client/src/components/RecordingSection.tsx:64-67 | one queued `stop` event is consumed, and the chunks become an `audio/webm` blob shown through a fresh live URL |
| `RecordingComponent.RecordingSection.Start` | client/src/components/RecordingSection.tsx:47-51 | the new state is `StartStep` of the old one: the chunks are emptied and one more microphone request is outstanding |
| `RecordingComponent.RecordingSection.Acquired` | client/src/components/RecordingSection.tsx:51-92 | the new state is `AcquiredStep` of the old one: a grant records from zero with a running interval, orphaning the interval the ref held |
| `RecordingComponent.RecordingSection.DataAvailable` | client/src/components/RecordingSection.tsx:57-61 | the new state is `DataAvailableStep` of the old one: a non-empty fragment is appended |
| `RecordingComponent.RecordingSection.Tick` | client/src/components/RecordingSection.tsx:81-83 | the new state is `TickStep` of the old one: the duration is one more, and a tick of the ref's interval happens only while recording and unpaused |
| `RecordingComponent.RecordingSection.PauseToggle` | client/src/components/RecordingSection.tsx:95-111 | the new state is `PauseToggleStep` of the old one: a capturing recorder toggles with its timer; otherwise nothing changes |
| `RecordingComponent.RecordingSection.Stop` | client/src/components/RecordingSection.tsx:113-123 | the new state is `StopStep` of the old one |
| `RecordingComponent.RecordingSection.RunEffectCleanup` | client/src/components/RecordingSection.tsx:33-45 | the new state is `EffectCleanup` of the old one |
| `RecordingComponent.RecordingSection.OnStop` | client/src/components/RecordingSection.tsx:57-72 | the new state is `OnStopStep` of the old one: the blob holds the chunks' bytes followed by the final data, and no stream, timer or capturing recorder is left |
| `RecordingComponent.RecordingSection.Reset` | client/src/components/RecordingSection.tsx:125-140 | the new state is `ResetStep` of the old one |
| `RecordingComponent.RecordingSection.Process` | client/src/components/RecordingSection.tsx:142-182 | the new state and the upload made are `ProcessStep` of the old state |
| `RecordingComponent.RecordingSection.SetTitle` | client/src/components/RecordingSection.tsx:196 | the new state is `SetTitleStep` of the old one |
| `RecordingComponent.RecordingSection.Unmount` | client/src/components/RecordingSection.tsx:33-45 | the new state is the effect cleanup with the shown URL: no timer, no live stream, no live URL |
| `Scenarios.ThreeFragments` | client/src/components/RecordingSection.tsx:57-72 | start, a grant, two fragments, stop and the `stop` event with the final data give a blob of the three in order |
| `Scenarios.Recorded` | client/src/components/RecordingSection.tsx:47-123 | start, a grant, stop and the `stop` event give a valid session holding a blob of the final data, with no title and duration 0 |
| `Scenarios.PauseExcluded` | client/src/components/RecordingSection.tsx:95-111 | two ticks, a pause, a resume, one tick and a stop give a duration of 3; no tick can occur while paused |
| `Scenarios.MicrophoneRefused` | client/src/components/RecordingSection.tsx:85-92 | a refused microphone leaves no recording, no chunks and no timer |
| `Scenarios.DoubleClick` | client/src/components/RecordingSection.tsx:47-123 | two clicks before the microphone answers: the stopped recording's duration still grows |
| `Scenarios.RestartBeforeStopEvent` | client/src/components/RecordingSection.tsx:47-72 | start clicked again before the `stop` event arrives: the delivered clip is the recorder's final data alone |
| `Scenarios.TitleRequired` | client/src/components/RecordingSection.tsx:152-171 | processing without a title uploads nothing and keeps the blob; with a title it uploads it and clears the session |
| `Scenarios.RetryAfterFailure` | client/src/components/RecordingSection.tsx:172-181 | a failed upload keeps the blob, title and duration, and the retry sends the same upload |

## Findings

| source | as written | input that shows it | evidently intended | confidence | as-written member | corrected member |
|---|---|---|---|---|---|---|
| client/src/components/AppLayout.tsx:23 | takes the first character of the first and last space-separated parts without checking that they are non-empty; an empty part inserts the text "undefined" | a user whose name is "Ada " (trailing space) gets the initials "AUNDEFINED"; a name of only spaces gets "UNDEFINEDUNDEFINED" (`SpacesAtBothEndsShowUndefinedTwice`) | the initials of the first and last non-empty words, falling back to the username when there are none | high, not executed | `AppLayout.TrailingSpaceShowsUndefined` | `AppLayout.IntendedInitials` |

## Left out

- The live visualizer (`client/src/components/ui/visualizer.tsx`) is not part of this model. This covers its Web Audio analyser, canvas drawing and animation-frame loop. Its one input from the session, the active flag `isRecording && !isPaused`, is modelled as `VisualizerActive`.
- Browser and network calls are outcomes, not code:
  - `getUserMedia` is the `acquireOk` parameter;
  - `MediaRecorder` is the recorder state and the `DataAvailable`/`OnStop` events;
  - a `Blob` is the chunks' concatenated bytes and a media type;
  - object URLs are creation numbers, with a set of unrevoked ones;
  - `createRecording` is the `uploadOk` parameter, with the upload returned as a value.
- Timing and presentation are not modelled: wall-clock time, `setInterval` scheduling (replaced by explicit `Tick` events), toasts and their messages, console logging, and all rendering.
- RecordingComponent.RecordingSection.Process: the upload is one atomic step. Events arriving while `createRecording` is in flight are not modelled, and the reset after success uses the current state rather than the handler's captured render values.
- RecordingComponent.RecordingSection.Acquired: only a refused microphone is modelled as a failure. A failure of the recorder's construction or `start()` after the stream was granted would leave that stream capturing; this is not modelled.
- Each handler runs to completion as one step, except `startRecording`, which is split at its `await` into `Start` and `Acquired`.
- A recorder dropped by a second grant is represented only by its stream in `leakedStreams`. It keeps capturing; its fragments are covered because `DataAvailable` may arrive at any time, and it never queues a `stop` event.
- An interval out of the ref's reach is a count, `orphanTimers`; each firing is a `Tick`. Its handle is lost, so nothing in the component clears it.
- `ondataavailable` may fire at any time in the model, because the callback has no guard. The final `dataavailable` is delivered together with its `stop` event, as `OnStop(final)`. The browser's actual schedule is not modelled: a recorder started without a timeslice, as here, delivers no separate fragments, only that final data.
- Events after unmount are not modelled. In the browser, a `stop` event that was still queued would create an object URL that nothing revokes.
- `toUpperCase` covers ASCII letters only, and a string is a sequence of Unicode scalar values rather than UTF-16 code units.
- `getInitials` assumes the username is non-empty when there is no display name. Registration requires at least three characters (client/src/components/RegisterForm.tsx:14). An empty username would make the code throw.
- The course registry, the recordings list, routing, authentication, the login and registration forms and the rest of the layout markup are not part of this model.
