# AudioNotes audio session engine in Dafny

A model of the sequential logic of the AudioNotes React Native app, a
voice-notes recorder: the recorders that start and stop a capture, collect
metering samples and keep the list of finished notes; the playback handler
that keeps a note's sound and its latest status; the waveform bucketizer that
reduces a note's metering to 60 bars; the progress fraction, the played-bar
rule and the `m:ss` time formatting of a note list item.

Modules, one per component:

- `Wrappers` (`wrappers.dfy`): `Option`, standing for `undefined`, `null` and the NaN of an empty average.
- `Waveform` (`waveform.dfy`): the bucketization loop of `src/components/AudioNoteListItem.tsx` and its copy in `src/components/RecordingListItem.tsx`, with the floor/ceiling window arithmetic and the averages.
- `PlaybackProgress` (`progress.dfy`): position, duration, progress and the highlight rule of both list items.
- `TimeFormat` (`format.dfy`): `formatMilliseconds` of `AudioNoteListItem.tsx`.
- `AudioPlayback` (`playback.dfy`): the `useAudioPlayback` hook, whose handlers `AudioNoteListItem.tsx:19-46,70` repeat. It is a class whose calls on the sound are kept in a log. A small player model says what each call does.
- `RecordingDevice` (`recording_device.dfy`): the recording handle and the truthiness tests the recorders apply.
- `AudioNotesScreen`, `AudioRecorderHook`, `RecordingsView`, `RecorderView`: one recorder class per source file. Each handler is one atomic method.

Device outcomes are parameters:

- `StartRecording(created)` receives the recording `createAsync` produced. It receives `None` when a device call threw: permission, audio mode or creation.
- `StopRecording(uri)` receives what `getURI()` returned.
- A status update receives its optional metering value.
- The hook's `StopRecording` also receives the clock reading `Date.now()`.

Behaviours of the code worth stating outright:

- Notes are not de-duplicated by URI.
- Metering is not clamped to [-160, 0].
- Nothing stops `startRecording` from running while a recording is active. Only the record button's dispatch prevents it.
- A stop without a URI keeps the buffer as it is.
- Progress is not clamped to [0, 1]. It lies in [0, 1] only while the position is within the duration (`ProgressInUnitInterval`).
- The empty-window average is `0 / 0` in the code. Here it is `None`, not a silence sentinel.
- A note holds only `{uri, metering}`, and a hook recording holds `{uri, metering, timestamp}`. Neither has an id or a duration.

## Model

| member | source | states |
|---|---|---|
| Waveform.Start | src/components/AudioNoteListItem.tsx:81 | `Math.floor(i * N / K)` over naturals: for i up to K the start is at most N |
| Waveform.End | src/components/AudioNoteListItem.tsx:82 | `Math.ceil((i + 1) * N / K)` as the integer ceiling: for i below K the end is at most N |
| Waveform.StartIsFloor | src/components/AudioNoteListItem.tsx:81 | the window start is the floor of i*N/K: the largest multiple of K not above i*N |
| Waveform.EndIsCeiling | src/components/AudioNoteListItem.tsx:82 | the window end is the ceiling of (i+1)*N/K: the smallest multiple of K not below (i+1)*N |
| Waveform.WindowBounds | src/components/AudioNoteListItem.tsx:81-84 | for every bar i < K, 0 <= start <= end <= N, so the slice lies inside the metering array |
| Waveform.WindowNonEmptyIff | src/components/AudioNoteListItem.tsx:81-85 | a window is non-empty exactly when N >= 1; only an empty recording gives 0/0 |
| Waveform.WindowsSpanArray | src/components/AudioNoteListItem.tsx:81-82 | the first window starts at 0 and the last ends at N |
| Waveform.WindowsNoGap | src/components/AudioNoteListItem.tsx:81-82 | window starts never decrease, and window i ends at or after the start of window i+1 |
| Waveform.SampleCovered | src/components/AudioNoteListItem.tsx:80-84 | every sample j < N lies in the window of bar j*K/N, which is a valid bar |
| Waveform.WindowsIdentity | src/components/AudioNoteListItem.tsx:81-82 | with N = K, window i is exactly [i, i+1) |
| Waveform.Sum | src/components/AudioNoteListItem.tsx:85 | the `reduce` left fold from 0; the sum of one sample is that sample |
| Waveform.Average | src/components/AudioNoteListItem.tsx:85 | the average is defined exactly when the slice is non-empty |
| Waveform.SumBounds | src/components/AudioNoteListItem.tsx:85 | the reduce-sum of values in [lo, hi] lies in [len*lo, len*hi] |
| Waveform.AverageWithinRange | src/components/AudioNoteListItem.tsx:84-85 | the mean of a non-empty slice lies between the slice's minimum and maximum |
| Waveform.AverageSingleton | src/components/AudioNoteListItem.tsx:85 | the mean of one sample is that sample |
| Waveform.Window | src/components/AudioNoteListItem.tsx:84 | `metering.slice(start, end)`: its length is end - start |
| Waveform.Bucket | src/components/AudioNoteListItem.tsx:84-85 | the mean of bar i's window; no bar is defined for an empty recording |
| Waveform.Bucketize | src/components/AudioNoteListItem.tsx:77-88 | the loop pushes exactly 60 bars, bar i being the mean of window i (same loop at src/components/RecordingListItem.tsx:22-33) |
| Waveform.BucketDefinedIff | src/components/RecordingListItem.tsx:26-30 | every bar is defined (no division by zero) exactly when the metering is non-empty |
| Waveform.BucketWithinWindow | src/components/RecordingListItem.tsx:29-30 | each defined bar lies between its window's minimum and maximum sample |
| Waveform.BucketIdentity | src/components/RecordingListItem.tsx:29-30 | with exactly 60 samples, bar i is sample i |
| PlaybackProgress.Position | src/components/AudioNoteListItem.tsx:72 | the position is 0 unless the status is loaded |
| PlaybackProgress.Duration | src/components/AudioNoteListItem.tsx:73 | the duration is 1 unless the status is loaded |
| PlaybackProgress.Progress | src/components/AudioNoteListItem.tsx:75 | `duration ? position / duration : 0`; never negative |
| PlaybackProgress.ProgressUnloaded | src/components/RecordingListItem.tsx:18-20 | with no status or an unloaded one, position 0 and duration 1 give progress 0 |
| PlaybackProgress.ProgressWithoutDuration | src/components/AudioNoteListItem.tsx:75 | a missing or zero duration gives progress 0 whatever the position, instead of dividing |
| PlaybackProgress.ProgressInUnitInterval | src/components/AudioNoteListItem.tsx:72-75 | if 0 <= position <= duration, progress is in [0, 1], and it is 1 at the end of a non-empty sound |
| PlaybackProgress.Highlighted | src/components/AudioNoteListItem.tsx:110 | `progress > idx / 60`; no bar is played at a progress of 0 or less |
| PlaybackProgress.HighlightedPrefix | src/components/AudioNoteListItem.tsx:110 | if bar j is drawn as played, so is every bar i <= j |
| PlaybackProgress.HighlightedIff | src/components/AudioNoteListItem.tsx:110 | bar idx is played exactly when idx < progress * 60 |
| PlaybackProgress.HighlightedAtEnds | src/components/AudioNoteListItem.tsx:110 | at progress 0 no bar is played; at progress 1 all 60 are |
| TimeFormat.Decimal | src/components/AudioNoteListItem.tsx:55 | a number prints as at least one digit, with no leading zero |
| TimeFormat.DecimalRoundTrip | src/components/AudioNoteListItem.tsx:55 | reading the printed digits back gives the number |
| TimeFormat.FormatMilliseconds | src/components/AudioNoteListItem.tsx:48-56 | `formatMilliseconds`: at least four characters, with a colon |
| TimeFormat.Minutes | src/components/AudioNoteListItem.tsx:51 | `Math.floor(ms / 60000)`: whole minutes that do not exceed ms |
| TimeFormat.Seconds | src/components/AudioNoteListItem.tsx:52 | `Math.floor((ms % 60000) / 1000)`: always below 60 |
| TimeFormat.SecondsRemainder | src/components/AudioNoteListItem.tsx:53 | `secondsRemainder`: at least two digits, exactly two below 60, and a leading 0 exactly when the seconds are below 10 |
| TimeFormat.SecondsRemainderReadsBack | src/components/AudioNoteListItem.tsx:53 | for seconds below 60 the padded seconds field is exactly two digits that read back as the seconds |
| TimeFormat.MinutesSecondsSplit | src/components/AudioNoteListItem.tsx:51-52 | seconds are in [0, 59], and minutes*60000 + seconds*1000 is within one second below ms |
| TimeFormat.FormatReadsBack | src/components/AudioNoteListItem.tsx:48-56 | the text is `m:ss`: the part before the colon is the decimal of ms div 60000 without leading zeros, and the two zero-padded digits after it read back as (ms mod 60000) div 1000; so missing or 0 gives "0:00" |
| AudioPlayback.PerformAllAppend | src/hooks/useAudioPlayback.tsx:13-16 | running two batches of sound calls is running the first and then the second |
| AudioPlayback.CallsAfterUnloadRejected | src/components/AudioNoteListItem.tsx:62-68 | after the cleanup unloads the sound, it stays released and silent, and every later pause, seek or replay is rejected, one rejection each |
| AudioPlayback.FinishRewinds | src/hooks/useAudioPlayback.tsx:13-16 | the pause and seek-to-0 after a finish leave a loaded sound paused at position 0 |
| AudioPlayback.ReplayRestarts | src/hooks/useAudioPlayback.tsx:30 | a replay leaves a loaded sound playing from position 0 |
| AudioPlayback.PauseKeepsPosition | src/hooks/useAudioPlayback.tsx:35 | a pause stops a loaded sound and keeps its position |
| AudioPlayback.PlaybackHandler.constructor | src/hooks/useAudioPlayback.tsx:7-8 | no status, no sound, no calls made |
| AudioPlayback.PlaybackHandler.LoadSound | src/hooks/useAudioPlayback.tsx:19-26 | the loaded sound is stored; status and calls are unchanged |
| AudioPlayback.PlaybackHandler.OnPlaybackStatusUpdateCaptured | src/hooks/useAudioPlayback.tsx:10-24 | the callback as registered by `loadSound`, with the sound its closure captured: every status becomes the latest one; a loaded status with didJustFinish adds pause then seek-to-0 only when the captured sound is defined; any other status makes no call |
| AudioPlayback.PlaybackHandler.OnPlaybackStatusUpdate | src/hooks/useAudioPlayback.tsx:10-17 | the callback reading the current sound, as intended: a loaded status with didJustFinish adds pause then seek-to-0 when a sound is loaded; every status becomes the latest one |
| AudioPlayback.PlaybackHandler.PlaySound | src/hooks/useAudioPlayback.tsx:28-31 | no call without a sound, otherwise exactly one replay |
| AudioPlayback.PlaybackHandler.PauseSound | src/hooks/useAudioPlayback.tsx:33-36 | no call without a sound, otherwise exactly one pause |
| AudioPlayback.PlaybackHandler.CleanupCaptured | src/hooks/useAudioPlayback.tsx:41-45 | the cleanup unloads the sound its closure captured, and only when that is defined |
| AudioPlayback.PlaybackHandler.Cleanup | src/components/AudioNoteListItem.tsx:62-68 | the cleanup of the effect on `[sound]` unloads the current sound, and only when there is one |
| AudioPlayback.PlaybackHandler.IsPlaying | src/hooks/useAudioPlayback.tsx:48 | playing exactly when the status is loaded and reports isPlaying |
| AudioPlayback.PlaybackHandler.Press | src/components/AudioNoteListItem.tsx:92 | pauses when playing and replays otherwise; nothing without a sound |
| AudioPlayback.HookCleanupLeaksSound | src/hooks/useAudioPlayback.tsx:38-46 | the hook as written: a sound loaded and playing when the item goes away stays loaded and playing |
| AudioPlayback.ItemCleanupReleasesSound | src/components/AudioNoteListItem.tsx:62-68 | with the current sound, the cleanup leaves a playing sound released and silent, with no call rejected |
| AudioPlayback.FinishThenReplay | src/components/AudioNoteListItem.tsx:19-46 | with the callback reading the current sound: play to the end and the sound is left loaded, paused, at position 0; then press and it is loaded, playing, at position 0 |
| AudioPlayback.FinishWithMountCallback | src/components/AudioNoteListItem.tsx:19-35 | the callback as written, registered from the mount render: a sound that plays to its end gets no pause and no rewind, and the finishing status leaves progress at 1 with all 60 bars drawn as played |
| RecordingDevice.IsTruthyUri | src/screens/AudioNotesScreen.tsx:72 | `if (uri)`, also at src/hooks/useAudioRecorder.tsx:58, src/views/RecorderView.tsx:50 and src/views/RecordingsView.tsx:60: null and the empty string are falsy, every non-empty string is truthy |
| RecordingDevice.IsTruthyMetering | src/screens/AudioNotesScreen.tsx:52 | `if (status.metering)`, also at src/hooks/useAudioRecorder.tsx:38: an absent value and 0 are falsy, every other level is truthy |
| RecordingDevice.MeteringOr | src/views/RecordingsView.tsx:43 | the metering value when it is truthy and -100 otherwise, so never 0 |
| AudioNotesScreen.Recorder.constructor | src/screens/AudioNotesScreen.tsx:27-32 | no recording, no notes, empty buffer, level -100 |
| AudioNotesScreen.Recorder.StartRecording | src/screens/AudioNotesScreen.tsx:34-60 | the buffer is emptied even when the start throws; a throwing start leaves the recording and the notes unchanged |
| AudioNotesScreen.Recorder.OnRecordingStatusUpdate | src/screens/AudioNotesScreen.tsx:51-55 | a truthy metering value is appended at the end and becomes the level; undefined or 0 changes nothing; earlier samples are kept |
| AudioNotesScreen.Recorder.StopRecording | src/screens/AudioNotesScreen.tsx:62-78 | a no-op without a recording; otherwise clears it whatever the URI; a truthy URI puts exactly one note {uri, buffer} first with the old notes after it in order; the buffer is untouched |
| AudioNotesScreen.Recorder.Press | src/screens/AudioNotesScreen.tsx:117 | stops when a recording is active and starts otherwise |
| AudioNotesScreen.RecordOneNote | src/screens/AudioNotesScreen.tsx:34-78 | start, five truthy ticks and two falsy ones, then stop with a URI: the list is exactly one note holding that URI and the five samples in order |
| AudioNotesScreen.FailedStartAddsNothing | src/screens/AudioNotesScreen.tsx:34-78 | after one recorded note, a start that throws empties the buffer, leaves no recording and keeps the note; a later stop adds nothing |
| AudioRecorderHook.Recorder.constructor | src/hooks/useAudioRecorder.tsx:12-18 | no recording, no recordings, empty buffer, level -100 |
| AudioRecorderHook.Recorder.StartRecording | src/hooks/useAudioRecorder.tsx:20-46 | the buffer is reset first; a throwing start leaves the recording and the recordings unchanged |
| AudioRecorderHook.Recorder.OnRecordingStatusUpdate | src/hooks/useAudioRecorder.tsx:37-42 | only a truthy metering value is appended at the end |
| AudioRecorderHook.Recorder.StopRecording | src/hooks/useAudioRecorder.tsx:48-64 | a no-op without a recording; otherwise clears it; a truthy URI prepends {uri, buffer, timestamp = clock input}; otherwise the list is unchanged |
| AudioRecorderHook.TwoRecordings | src/hooks/useAudioRecorder.tsx:20-64 | two sessions give two recordings, the later first, each with only its own samples and time |
| RecordingsView.Recorder.constructor | src/views/RecordingsView.tsx:23-26 | no recording, no notes, level -100 |
| RecordingsView.Recorder.StartRecording | src/views/RecordingsView.tsx:28-48 | a new recording becomes active; a throwing start changes nothing |
| RecordingsView.Recorder.OnRecordingStatusUpdate | src/views/RecordingsView.tsx:42-44 | the live level becomes the metering value, or -100 when it is missing or 0 |
| RecordingsView.Recorder.StopRecording | src/views/RecordingsView.tsx:50-63 | a no-op without a recording; otherwise clears it and puts a truthy URI first; the list is unchanged without one |
| RecordingsView.Recorder.Press | src/views/RecordingsView.tsx:100 | stops when recording and starts otherwise |
| RecordingsView.LevelFollowsStatus | src/views/RecordingsView.tsx:28-63 | the level follows each status with the -100 fallback; one press pair records one URI |
| RecorderView.Recorder.constructor | src/views/RecorderView.tsx:20-21 | no recording, no notes |
| RecorderView.Recorder.StartRecording | src/views/RecorderView.tsx:23-38 | a new recording becomes active; a throwing start leaves the recording and the notes unchanged |
| RecorderView.Recorder.StopRecording | src/views/RecorderView.tsx:40-53 | a no-op without a recording; otherwise clears it, prepends a truthy URI and keeps the older ones in order |
| RecorderView.Recorder.Press | src/views/RecorderView.tsx:74 | stops when recording and starts otherwise |
| RecorderView.ThreeSessions | src/views/RecorderView.tsx:23-53 | three sessions, one without a URI, keep only the two URIs, newest first, and end idle |

## Left out

- Device calls are not modelled as behaviour. These are `requestPermissionsAsync`, `setAudioModeAsync`, `Recording.createAsync`, `stopAndUnloadAsync`, `getURI` and `Sound.createAsync`. Their outcomes are method parameters. The playback calls `pauseAsync`, `setPositionAsync`, `replayAsync` and `unloadAsync` are logged. Their effect is given by the small player model `AudioPlayback.Perform`. In that model, a sound that is no longer loaded rejects pause, seek and replay.
- A `Sound.createAsync` that fails in `loadSound` is not modelled. The source does not catch it, so no sound is ever stored.
- The cleanup effect of `useAudioRecorder` (src/hooks/useAudioRecorder.tsx:87-93) is not modelled. Its only action is a device call, `stopAndUnloadAsync`.
- `interpolate`, `withTiming` and `useAnimatedStyle` are left out. They are animation with floating-point easing. The bar height and the record-button wave are display concerns.
- JSX, styles, list rendering and keys are left out. So are `RecordButton`, `PlayButton`, `RecordingsScreen` and `App`, whose logic is the press dispatch already modelled.
- `src/utils/format`, `src/components/AudioWave` and `src/types/Recording` are not part of this model. The recording's fields are taken from their use at src/hooks/useAudioRecorder.tsx:60.
- Asynchronous interleavings are left out: a stop pressed while a start is still awaiting, or status callbacks that arrive after a stop. Each handler is one atomic step.
- React's closure capture is left out: `stopRecording` reads the `audioMetering` of its render, and effects re-run on re-render. The model reads the current state. The exceptions are the playback cleanup and the playback status callback. There the captured sound is the parameter of `AudioPlayback.PlaybackHandler.CleanupCaptured` and `AudioPlayback.PlaybackHandler.OnPlaybackStatusUpdateCaptured`, because both captures lose calls (see Findings).
- AudioPlayback.PlaybackHandler.OnPlaybackStatusUpdate: uses the handler's current sound, which is the intended behaviour and not the code as written. In the source the callback is the one `loadSound` registers with `createAsync`, once per load, from the render whose effect ran `loadSound`. For the sound loaded at mount that render's `sound` is always undefined, so the pause and rewind after a finish never reach the sound. After a note change the callback holds the previous note's sound, so they go to that sound instead. `OnPlaybackStatusUpdateCaptured` models the code as written; the calls log of the model does not tell one sound from another, so the previous-sound case is not captured beyond the calls being made.
- JavaScript numbers are left out: floating point, NaN and printing very large numbers in exponent form. Samples are exact `real`s, and times and positions are `nat` milliseconds. An empty slice's `0 / 0` is `None`, and `formatMilliseconds` takes non-negative integers or `undefined`.

## Findings

| source | as written | input that shows it | evidently intended | confidence | as-written member | corrected member |
|---|---|---|---|---|---|---|
| src/hooks/useAudioPlayback.tsx:38-46 | the effect depends only on `[recording]`, so its cleanup closure holds the `sound` of the render where the effect ran, which is undefined at mount | mount the item, let the sound load, press play, unmount: `unloadAsync` is never called and the sound keeps playing | unload the sound held when the item goes away, as src/components/AudioNoteListItem.tsx:62-68 does with an effect on `[sound]` | medium, not executed | AudioPlayback.HookCleanupLeaksSound | AudioPlayback.ItemCleanupReleasesSound |
| src/components/AudioNoteListItem.tsx:19-35 | `loadSound` passes `onPlaybackStatusUpdate` to `createAsync` from the render whose effect ran it, so the callback reads that render's `sound`: undefined for the sound loaded at mount, the previous note's sound after a note change (the same at src/hooks/useAudioPlayback.tsx:10-24) | mount the item, let the sound load, press play and let it play to the end: neither `pauseAsync` nor `setPositionAsync(0)` is called, and the bars stay drawn as fully played | on the finishing status, pause the current sound and rewind it to 0, which `FinishThenReplay` proves leaves it paused at position 0 | medium, not executed | AudioPlayback.FinishWithMountCallback | AudioPlayback.PlaybackHandler.OnPlaybackStatusUpdate |
