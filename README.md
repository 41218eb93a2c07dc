# TuneSync core rules in Dafny

TuneSync lets a musician compare a performance with a YouTube recording. The
client turns the backend's loudness waveform into chart records, moves a dot
along the chart with the audio position, and labels the loudness axis with
dynamic marks. The server aligns the student's recording with the example's
first onset, matches its loudness, and turns feature differences into feedback
sentences. This project models those rules and the client's state machines.

- `common.dfy` (`Common`): `Option`, `Result`, `Abs`.
- `waveform.dfy` (`Waveform`): the payload shapes as JavaScript sees them, the
  two normalisers (`processData` of the recorder, `processWaveform` of the
  audio processor), the closest-point `reduce`, the marker, the tick labels.
- `record.dfy` (`Record`): the recorder page as a class: chunks, recorder
  flags, upload result, play/pause, polling intervals, the `"ended"` listener.
- `audioprocessor.dfy` (`AudioProcessor`): the audio-processor hook as a
  class: link, data, audio URL, `isPlaying`, `loading`, `hasFetched`.
- `feedback.dfy` (`Feedback`): `compare_performances` and `generate_feedback`.
- `alignment.dfy` (`Match`): the alignment, silence check and loudness scaling
  of `process_student_audio`.

Numbers are `real`. A JSON field is `Missing` (undefined, null or falsy),
`Items` (an array of numbers) or `Other` (a truthy value that is not an array
and reads `undefined` at every index, such as a number). A record's `dynamics`
is `None` where JavaScript reads `undefined`.

The model follows the code on four points where a reader might expect otherwise:
- There is no length check between `times` and `dynamics`. A mismatch gives one
  record per entry of `times`, with `undefined` dynamics past the end of
  `dynamics`. It does not give an empty list.
- The playback time is not clamped to the data's time range.
- The dot marks the closest record, not the first one at or after the time. On
  a tie the earliest record wins.
- An empty `times` array is accepted, and both normalisers return `[]` for it.

## Model

| member | source | states |
|---|---|---|
| `Waveform.DynamicsAt` | client/src/components/record.jsx:113 | `dynamics[index]` has a value exactly when `dynamics` is an array longer than `index`, and then it is that entry |
| `Waveform.PairByIndex` | client/src/components/record.jsx:111-114 | the `map` gives one record per entry of `times`; record `i` has time `times[i]` and the dynamics read at `i` |
| `Waveform.ProcessData` | client/src/components/record.jsx:109-115 | `[]` when the payload, `times` or `dynamics` is missing or falsy; a `TypeError` exactly when `times` is truthy but not an array and `dynamics` is present; otherwise `|times|` records pairing by index |
| `Waveform.SplitRecoversColumns` | client/src/components/record.jsx:109-115 | round trip: when `dynamics` is at least as long as `times`, the records' time column is `times` and their dynamics column is the first `|times|` entries of `dynamics` |
| `Waveform.ProcessWaveform` | client/src/components/audioprocessor.jsx:47-65 | `[]` when the body or `waveform_data` is missing, or when `times` or `dynamics` is not an array; otherwise `|times|` records, record `i` pairing `times[i]` with `dynamics[i]`, undefined past the end of `dynamics` |
| `Waveform.NormalisersAgree` | client/src/components/audioprocessor.jsx:58-61 | on two arrays, `processWaveform` of the response gives the same records as `processData` of its `waveform_data` |
| `Waveform.NormalisersDisagreeOnNonArray` | client/src/components/audioprocessor.jsx:47-56 | on a non-array `times`, `processData` throws and `processWaveform` returns `[]` |
| `Waveform.Distance` | client/src/components/record.jsx:159 | `Math.abs(curr.time - currentTime)`, the distance the `reduce` compares; never negative |
| `Waveform.ReduceClosest` | client/src/components/record.jsx:158-160 | one step of the `reduce`: if the accumulator is the earliest record of least distance in the prefix, the result is that record for the whole list |
| `Waveform.ClosestIndex` | client/src/components/record.jsx:157-160 | on a non-empty list, the chosen record has the least `abs(time - currentTime)` of all records, and every earlier record is strictly farther away (the first one wins ties) |
| `Waveform.ClosestIndexUnique` | client/src/components/record.jsx:158-160 | any index that is at least distance and earliest among those is the one the `reduce` chooses |
| `Waveform.ClosestPoint` | client/src/components/record.jsx:158-160 | the closest point is a record of the list, and no record is nearer to the playback time |
| `Waveform.MarkedIndices` | client/src/components/record.jsx:166-170 | a circle is drawn exactly at the records whose `time` equals the closest point's time |
| `Waveform.MarkersAreClosest` | client/src/components/record.jsx:166-170 | the chosen record is marked, and every marked record is at the least distance from the playback time |
| `Waveform.OneMarkerOnIncreasingTimes` | client/src/components/record.jsx:166-170 | if times strictly increase, exactly one record is marked: the chosen one |
| `Waveform.TickFormatter` | client/src/components/record.jsx:145-150 | `m` exactly at 0.5; `mf` on (0.5, 0.75]; `f` above 0.75; `mp` on [0.25, 0.5); `p` below 0.25 |
| `Waveform.TickFormatterMonotone` | client/src/components/record.jsx:145-150 | every label is one of p, mp, m, mf, f, and a louder tick never gets a softer mark |
| `Record.RecordPage.HasAudio` | client/src/components/record.jsx:203-208 | `audioRef.current` is set (the guard at lines 29, 37 and 47) exactly when there is an audio URL, since the `<audio>` element is rendered only then; a definition with no `ensures` of its own |
| `Record.RecordPage.constructor` | client/src/components/record.jsx:11-26 | not recording, no recorder, no chunks, no audio URL, no chart data, not playing, time 0, no interval |
| `Record.RecordPage.MountEffect` | client/src/components/record.jsx:46-55 | the mount effect adds the `"ended"` listener only if an audio element exists when it runs |
| `Record.RecordPage.StartRecording` | client/src/components/record.jsx:57-78 | once the microphone is granted, a recorder exists and `isRecording` is true |
| `Record.RecordPage.DataAvailable` | client/src/components/record.jsx:61-65 | a chunk is appended exactly when its size is positive, and otherwise the list is unchanged; all kept chunks are non-empty |
| `Record.RecordPage.RecorderStopped` | client/src/components/record.jsx:67-74 | the kept chunks become the recording behind the audio URL, are handed to the upload, and the chunk list is reset to empty |
| `Record.RecordPage.UploadSettled` | client/src/components/record.jsx:87-107 | on failure nothing changes; on a 2xx body `waveformData` is stored, and so are the processed records unless `processData` throws |
| `Record.RecordPage.StopRecording` | client/src/components/record.jsx:80-85 | `isRecording` is cleared only when a recorder exists; otherwise nothing changes |
| `Record.RecordPage.StartPlayback` | client/src/components/record.jsx:28-44 | `isPlaying` always flips, even without an audio element; starting resets `currentTime` to 0 and starts polling (an interval still running leaks); pausing stops the ref's interval and keeps `currentTime` |
| `Record.RecordPage.TimerTick` | client/src/components/record.jsx:36-40 | while an interval runs and the audio element exists, a tick sets `currentTime` to the audio position; otherwise it is unchanged |
| `Record.RecordPage.EndedListener` | client/src/components/record.jsx:48-52 | the `"ended"` listener stops the interval, sets `currentTime` to 0 and `isPlaying` to false |
| `Record.RecordPage.AudioEnded` | client/src/components/record.jsx:208 | at the end of the audio `isPlaying` is false; `currentTime` is reset and polling stopped only if the listener was attached, otherwise both are unchanged |
| `Record.RecordPage.Marker` | client/src/components/record.jsx:157-170 | the dot is shown exactly when there are chart records, at a record no farther from `currentTime` than any other |
| `Record.EndedListenerMissed` | client/src/components/record.jsx:46-55 | in the page as written, after recording, playing and a tick at position p, the end of the audio leaves `currentTime` at p and the interval running |
| `Record.EndedListenerAttachedWithAudio` | client/src/components/record.jsx:46-55 | the same session with the listener effect run once the audio element exists: the end of the audio rewinds `currentTime` to 0 and stops the interval |
| `Record.ReplayAfterMissedEndLeaksTimer` | client/src/components/record.jsx:28-55 | continuing the missed-listener session with a second play: `currentTime` is 0 and playing, a new interval runs, and the old one has leaked |
| `AudioProcessor.AudioProcessorState.constructor` | client/src/components/audioprocessor.jsx:5-12 | empty link, `data` is `[]`, empty audio URL, and `isPlaying`, `loading`, `hasFetched` are false |
| `AudioProcessor.AudioProcessorState.SetYoutubeLink` | client/src/components/audioprocessor.jsx:5 | the link is the one typed |
| `AudioProcessor.AudioProcessorState.FetchStart` | client/src/components/audioprocessor.jsx:16-18 | an empty link starts nothing and changes no state; otherwise `loading` and `hasFetched` become true and nothing else changes |
| `AudioProcessor.AudioProcessorState.FetchSettle` | client/src/components/audioprocessor.jsx:31-43 | `loading` ends false on every path; a failure keeps `data` and `audioUrl`; a body stores the processed records and `audio_file_url`, except that a `null` body stores `[]` and keeps the URL |
| `AudioProcessor.AudioProcessorState.FetchData` | client/src/components/audioprocessor.jsx:15-44 | a whole fetch: an empty link changes nothing; otherwise `hasFetched` is true, `loading` is false, and `data` and `audioUrl` are as the outcome leaves them |
| `AudioProcessor.AudioProcessorState.ToggleAudio` | client/src/components/audioprocessor.jsx:68-76 | with the audio element present `isPlaying` flips; without one the call throws and `isPlaying` is unchanged |
| `AudioProcessor.AudioProcessorState.HandleAudioEnd` | client/src/components/audioprocessor.jsx:79-81 | `isPlaying` becomes false |
| `AudioProcessor.FetchThenPlay` | client/src/components/audioprocessor.jsx:15-44 | a successful fetch of equal-length arrays followed by play and end leaves one record per sample, the returned URL, `hasFetched`, no loading and no playback |
| `Feedback.ComparePerformances` | server/model/model.py:50-53 | succeeds exactly when `actual` has every key of `expected`; the result has exactly the keys of `expected`, each `actual[k] - expected[k]`; otherwise a `KeyError` for the missing keys |
| `Feedback.CompareAntisymmetric` | server/model/model.py:50-53 | with equal key sets, swapping the two performances negates every difference |
| `Feedback.Fire` | server/model/model.py:61-71 | a rule contributes one sentence exactly when `abs(v)` is strictly above its threshold, saying the "above" direction exactly when `v > 0` |
| `Feedback.ApplyRules` | server/model/model.py:59-73 | the reference definition of the rule chain that `GenerateFeedback` is proved equal to: rules applied in order, a `KeyError` for the first missing key; its own `ensures` says only that an error names a key some rule reads and the map lacks |
| `Feedback.ApplyRulesOk` | server/model/model.py:59-73 | the rules succeed exactly when every key they read is present, and give at most one sentence per rule |
| `Feedback.ApplyRulesReadsOnlyRuleKeys` | server/model/model.py:59-73 | two difference maps that agree on the rules' keys get the same outcome |
| `Feedback.GenerateFeedback` | server/model/model.py:55-73 | the successive conditional appends compute the rule list pitch, tempo, energy, including the `KeyError` for the first missing key |
| `Feedback.Feedback` | server/model/model.py:55-73 | the feedback of a difference map: the rule list pitch, tempo, energy; the definition that `FeedbackShape`, `FeedbackMessages`, `FeedbackReadsThreeKeys` and `IdenticalPerformancesNoFeedback` are about; its own `ensures` says only that an error names a missing one of the three keys |
| `Feedback.FeedbackShape` | server/model/model.py:59-73 | a `KeyError` names the first missing of pitch, tempo, energy; otherwise the feedback is the pitch sentence, then tempo, then energy, each present or absent |
| `Feedback.FeedbackMessages` | server/model/model.py:61-71 | at most 3 sentences; "pitch higher" iff pitch > 1, "lower" iff < -1; "tempo faster" iff > 5, "slower" iff < -5; "louder" iff energy > 0.1, "softer" iff < -0.1 (so exactly 1, 5 or 0.1 gives none) |
| `Feedback.FeedbackReadsThreeKeys` | server/model/model.py:59-73 | feedback depends only on the `pitch`, `tempo` and `energy` entries |
| `Feedback.IdenticalPerformancesNoFeedback` | server/model/model.py:50-73 | comparing a feature map with itself gives all-zero differences and no feedback |
| `Match.Trunc` | server/match.py:47 | `int(x)` truncates toward zero: the floor for non-negative `x`, the ceiling for negative `x` |
| `Match.Crop` | server/match.py:48 | `y[start:]` has `|y| - start` samples (none once `start` passes the end), is a suffix of `y`, and its sample `i` is `y[start + i]` |
| `Match.Zeros` | server/match.py:52 | `n` zero samples |
| `Match.Align` | server/match.py:45-54 | a late student (delta > 0) loses the first `int(delta * sr)` samples and keeps a suffix; an early one gets `int(abs(delta) * sr)` zeros in front and grows by that many samples; delta = 0 leaves the samples unchanged |
| `Match.AlignEarlyThenLate` | server/match.py:45-54 | padding an early recording and then cropping by the same delta gives the original samples |
| `Match.Scale` | server/match.py:69 | the scaled samples keep the length, and sample `i` is `y[i] * factor` |
| `Match.ScaleInverse` | server/match.py:65-69 | scaling by a non-zero factor and then by its reciprocal gives back the samples |
| `Match.ProcessStudentAudio` | server/match.py:28-69 | an error exactly when the example has no onset; else an error exactly when the student has none; else the samples aligned by the onset difference are rejected exactly when their mean RMS is 0, and otherwise scaled by example RMS / aligned RMS |
| `Match.ProcessedIsScaledAlignment` | server/match.py:61-69 | when the example's RMS is non-zero, undoing the loudness factor on the output gives back the aligned samples |

## Findings

| source | as written | input that shows it | evidently intended | confidence | as-written member | corrected member |
|---|---|---|---|---|---|---|
| client/src/components/record.jsx:46-55 | the effect that adds the `"ended"` listener has an empty dependency list. It runs once after the first render, and the `<audio>` element is not rendered then because `audioURL` is still `null`. So no listener is ever added | mount the page, record, stop, press play, let one interval tick report position p, let the audio end | at the end of playback, polling stops and `currentTime` goes back to 0. The element's `onEnded` prop catches only `isPlaying` | not executed; high | `Record.EndedListenerMissed` | `Record.EndedListenerAttachedWithAudio` |

## Left out

- Network calls (`fetch` to `/upload` and `/process_youtube`) are out. Only the settled outcome enters the model, as `UploadOutcome` and `FetchOutcome`. The request body and the HTTP status are abstracted away.
- `getUserMedia`, `MediaRecorder`, `Blob` and `URL.createObjectURL` are replaced by events and chunk sizes. The recorder's own state is not modelled, and neither is a refused permission.
- Unmounting the recorder page is not modelled, and so neither is the mount effect's cleanup, which clears the ref's interval.
- `setInterval` timing and the audio element's position are out. A tick is an event carrying the position.
- The `<audio>` element exists exactly when there is an audio URL. Its track (`play`, `pause`, the real `currentTime`) is not modelled.
- React state updates are modelled as immediate assignments, not as batched updates that take effect on the next render.
- Nothing stops `FetchSettle` from arriving out of order with a second `FetchStart`. The race between two outstanding requests is therefore modelled only as last-settled-wins.
- All rendering is out: Recharts, JSX layout, navigation to `/analyze`, and the unused `referenceWaveform` of `AudioProcessor()`.
- The dot's position in pixels (`cx`, `cy`) is not modelled.
- `Field.Other` stands only for truthy values that are neither arrays nor indexable. A string or an object passed as `dynamics` (indexable in JavaScript) is not modelled.
- JavaScript numbers and numpy floats are modelled as exact reals: no rounding, no NaN, no infinities.
- `Feedback.ComparePerformances` reports the whole set of missing keys. Python names one of them in its `KeyError`, in dictionary order, and insertion order is not modelled.
- `extract_features`, `evaluate_performance` (model prediction) and `save_trained_model` are out. They are calls into librosa, numpy and joblib.
- `Match.ProcessStudentAudio` takes as inputs what librosa computes: loading, resampling the student to the example's rate, onset detection with `frames_to_time`, and mean RMS. Writing the output file and the prints are left out.
- The other server files (`app.py`, `waveform.py`, `youtube_to_mp3.py`, `generate_advice.py`, `record.py`, `scorepiece.py`, `test_cursor.py`, `gen_data.py`) are out. They are I/O, library numerics, or code whose imports are missing.
- The other client components (`home.jsx`, `App.jsx`, `analyze.jsx`, `audioplayer.jsx`, `recordingprocessor.jsx`) are out. They are layout or upload plumbing.
