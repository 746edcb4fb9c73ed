# meetingnote segmentation controller in Dafny

meetingnote is a browser application that records a meeting and cuts the audio into segments while recording. It uploads each segment to an n8n workflow for transcription, joins the returned texts into a transcript, and asks the workflow to merge the audio when the recording stops. This project models the parts of it that decide and keep track of things:

- **Segment boundary policy** (`ChunksizeCondition`). A segment is due after 30 seconds. It is also due after 10 seconds once 2000 ms of silence has accumulated. The policy gives the reason label it uploads.
- **Silence accumulator** (`SilenceCondition`). Computes the RMS of an analyser buffer (a loop over an `array`). Steps the `{noiseFloor, voiceHoldMs, silenceMs}` state once per check tick. It has an adaptive mode (a moving noise floor clamped to [0,1]) and a fixed-threshold mode, and a voice debounce.
- **Recording orchestrator** (`AudioRecorder`, class `Orchestrator`). The refs the recorder component keeps between timer callbacks: seconds since the last send, silence, the in-flight guard, the chunk index and the transcript. Its events are start, the one-second tick, the check tick, the begin and completion of a send, stop with its final upload and merge, and an on-demand merge. `pad`/`formatTime` are also modelled. The check interval is a closure made by the render that ran `onStart`, so a periodic upload reports the `recMime` of that render, which in a first session is still empty and sent as `audio/webm`; the final upload from the stop handler reports the current one.
- **Capture session** (`UseRecorder`, class `CaptureSession`). The recorder hook's state:
  - the flags and the chunk buffer;
  - the preferred-MIME selection;
  - the `ondataavailable` filter;
  - the blob `stop` builds.
- **Revision history** (`Persist`). The pure update of a meeting's revision document: skip a duplicate, bump the revision, append, keep the newest `maxKeep`, load the latest, and list newest first. Class `RevisionStore` holds the documents in a `map`.
- **Summary panel** (`SummaryPanel`). Picks the summary content, normalises escaped line breaks and applies the blank-target guard of `onSummarize`.
- **Transcription client** (`TranscribeClient`). The MIME-to-extension rule and the generated file names with their module-level counter. Also the form's field order and the choice of the response text.
- **Common n8n helpers** (`N8nCommon`). Environment lookup, the runtime configuration, the error mapping of `fetchWithTimeout` and the branches of `diagnoseConnection`.

Supporting modules:
- `Wrappers`: `Option`/`Result`.
- `Strings`: ASCII `toLowerCase`, `includes`, `trim`, `String(n)`, `Number(s)`, global `replace`.
- `JsonValue`: parsed JSON values, `??` and `String(v)`.
- `Media`: bytes and blobs.

Asynchronous results are parameters of the events that receive them. This covers a settled upload, a merge answer, the microphone's outcome, a fetch reply, `Date.now()` and the analyser's level.

## Model

| member | source | states |
|---|---|---|
| ChunksizeCondition.Label | src/conditions/chunksize-condition.ts:23-24 | The two reason strings, each naming exactly one trigger. |
| ChunksizeCondition.Reason | src/conditions/chunksize-condition.ts:22-26 | 30 s or more gives max-seconds for any silence. Under 10 s gives none. In between, min-seconds-and-silence holds iff silence is at least 2000 ms, and none otherwise. |
| ChunksizeCondition.ShouldSend | src/conditions/chunksize-condition.ts:28-30 | A cut is due iff since >= 30, or since >= 10 and silence >= 2000. |
| ChunksizeCondition.ShouldSendIffReason | src/conditions/chunksize-condition.ts:28-30 | `shouldSend` holds exactly when `reason` is non-null. |
| ChunksizeCondition.ShouldSendMonotonic | src/conditions/chunksize-condition.ts:22-26 | Waiting longer or staying silent longer never withdraws a due cut. |
| ChunksizeCondition.ConcreteDecisions | src/conditions/chunksize-condition.ts:22-30 | The boundary cases (0,0), (9,3000), (10,1999), (9,2000), (10,2000), (15,2500), (30,0) and (30,3000) decide as the configuration implies. |
| ChunksizeCondition.ConfigurationWellFormed | src/conditions/chunksize-condition.ts:15-20 | 0 <= min < max; the silence requirement is non-negative and the chunk length positive. |
| SilenceCondition.Clamp01 | src/conditions/silence-condition.ts:20 | `max(0, min(1, x))` lies in [0,1] and is the identity inside it. |
| SilenceCondition.CreateSilenceState | src/conditions/silence-condition.ts:19-22 | The initial floor is the configured value (default 0.01) clamped into [0,1]; both counters start at 0. |
| SilenceCondition.Normalized | src/conditions/silence-condition.ts:29 | Every normalised sample `(b-128)/128` lies in [-1,1]. |
| SilenceCondition.SquareOfUnit | src/conditions/silence-condition.ts:30 | The square of a sample in [-1,1] lies in [0,1]. |
| SilenceCondition.SumSquaresBounds | src/conditions/silence-condition.ts:27-31 | The sum of squares lies between 0 and the buffer length. |
| SilenceCondition.MeanSquare | src/conditions/silence-condition.ts:32 | For a non-empty buffer the mean of squares lies in [0,1]. |
| SilenceCondition.CentredBufferIsSilent | src/conditions/silence-condition.ts:28-32 | An all-128 buffer has sum and mean of squares 0. |
| SilenceCondition.ComputeRms | src/conditions/silence-condition.ts:24-33 | The loop yields `sqrt` of the mean of squares of the whole buffer; an empty buffer gives NaN (`None`). |
| SilenceCondition.UseAdaptive | src/conditions/silence-condition.ts:42 | Adaptive iff the flag is unset or true, that is `!== false`. |
| SilenceCondition.NextNoiseFloor | src/conditions/silence-condition.ts:55-57 | On voice the floor moves 0.001 of the way to the level, otherwise 1-alpha of the way; with alpha in [0,1] it lies between the old floor and the level. |
| SilenceCondition.StepSilence | src/conditions/silence-condition.ts:35-77 | Adaptive mode is used unless the flag is exactly false; there a tick is silent iff rms <= floor + margin, and the new floor stays in [0,1]. Fixed mode is silent iff rms < threshold and leaves the floor alone. A silent tick adds dtMs to the silence and zeroes the hold; a voice tick adds dtMs to the hold and zeroes the silence only once the hold reaches the debounce (default 0). |
| SilenceCondition.CreatedStateValid | src/conditions/silence-condition.ts:19-22 | A fresh state has its floor in [0,1] and non-negative counters. |
| SilenceCondition.StepPreservesValid | src/conditions/silence-condition.ts:35-77 | With dtMs >= 0 a step in either mode keeps both counters non-negative and the floor in [0,1]. |
| SilenceCondition.NoiseFloorBetween | src/conditions/silence-condition.ts:55-58 | With alpha in [0,1] and a level in [0,1], the adaptive floor moves towards the level and never past it. |
| SilenceCondition.AllVoicePrefix | src/conditions/silence-condition.ts:50-60 | A run of voice ticks stays a run of voice ticks without its last tick. |
| SilenceCondition.RunLast | src/conditions/silence-condition.ts:35-77 | The state after a voice run is one voice step from the state before its last tick. |
| SilenceCondition.VoiceRunHold | src/conditions/silence-condition.ts:60 | Through n voice ticks the hold time grows by n*dtMs. |
| SilenceCondition.SustainedVoiceResetsSilence | src/conditions/silence-condition.ts:60-74 | Once a run of voice ticks has held for the debounce time, the silence count is 0. |
| SilenceCondition.TransientKeepsSilence | src/conditions/silence-condition.ts:71-89 | With the application configuration (400 ms debounce, 200 ms ticks), one loud tick after silence keeps the silence count. |
| SilenceCondition.SecondVoiceTickResetsSilence | src/conditions/silence-condition.ts:71-89 | A second consecutive loud tick resets it. |
| AudioRecorder.AppendTranscript | src/components/AudioRecorder.tsx:166-168 | The next transcript is the text alone after an empty one, else previous + newline + text. |
| AudioRecorder.JoinedNonEmpty | src/components/AudioRecorder.tsx:166-168 | Once the first text is non-empty the transcript never becomes empty. |
| AudioRecorder.JoinedIsLines | src/components/AudioRecorder.tsx:166-168 | When the first text is non-empty, the transcript equals the texts joined by line breaks. |
| AudioRecorder.LeadingEmptyTextVanishes | src/components/AudioRecorder.tsx:167 | An empty first text leaves no blank line: the second text starts the transcript. |
| AudioRecorder.SegmentReason | src/components/AudioRecorder.tsx:141 | The label is max-seconds iff since >= 30, and min-seconds-and-silence otherwise; when `reason` is non-null it is that reason's label. |
| AudioRecorder.FallbackLabelsWithoutSilence | src/components/AudioRecorder.tsx:141 | The fallback labels a cut as silence-triggered also when no cut was due. |
| AudioRecorder.Pad | src/components/AudioRecorder.tsx:197 | A leading zero exactly below 10. |
| AudioRecorder.PadReadsBack | src/components/AudioRecorder.tsx:197 | A padded number has at least two digits and reads back as the number; below 100 it has exactly two. |
| AudioRecorder.FormatTime | src/components/AudioRecorder.tsx:198-202 | For any number of seconds: the minutes' digits, a colon, and two digits of seconds below 60; minutes times 60 plus seconds read back gives the input. |
| AudioRecorder.FormatTimeRoundTrip | src/components/AudioRecorder.tsx:198-202 | Below 6000 s the display is `mm:ss` with seconds below 60, and reading it back gives the seconds. |
| AudioRecorder.FormatTimeLong | src/components/AudioRecorder.tsx:198-202 | From 100 minutes on the minutes take three digits. |
| AudioRecorder.MimeField | src/components/AudioRecorder.tsx:163 | The uploaded MIME is never empty and is the recorder's type when it has one. |
| AudioRecorder.UploadFields | src/components/AudioRecorder.tsx:158-164 | Five fields in entry order: `recording_id`, `recording_index`, `reason`, `elapsedSeconds`, `mime`, sent as the meeting ID, the index's decimal digits, the reason, the elapsed seconds in decimal and the MIME. |
| AudioRecorder.IndexFieldReadsBack | src/components/AudioRecorder.tsx:160 | `Number` of the sent `recording_index` string is the index. |
| AudioRecorder.CandidateExtensions | src/hooks/use-recorder.ts:59-64 | Each of the four recorder candidates is uploaded under its container's extension: webm, webm, ogg, m4a; none as bin. |
| AudioRecorder.MergeStatus | src/components/AudioRecorder.tsx:114-119 | Done with a link, the no-link message without one, and the error message on failure. |
| AudioRecorder.AfterMerge | src/components/AudioRecorder.tsx:176-187 | A settled merge sets that status. A link updates the merged URL, and a failure raises the error toast. No flag changes. |
| AudioRecorder.Failed | src/components/AudioRecorder.tsx:147-150 | A caught failure shows its message as status and as an `Error:` toast, and changes nothing else. |
| AudioRecorder.Orchestrator.constructor | src/components/AudioRecorder.tsx:20-32 | All refs and screen values start at their initial values. |
| AudioRecorder.Orchestrator.OnStart | src/components/AudioRecorder.tsx:45-99 | Resets the transcript, both counters and the chunk index, creates a fresh silence state from the app configuration and clears the merged link. The status becomes the hook's (`Recording...` or the microphone error). The check timer keeps the `recMime` of the render that started it. Timers start only after a clean start; an error turns the session inactive with a toast. |
| AudioRecorder.Orchestrator.SecondTick | src/components/AudioRecorder.tsx:66-68 | Adds exactly 1 to the seconds since the last send, nothing else. |
| AudioRecorder.Orchestrator.CheckTick | src/components/AudioRecorder.tsx:71-93 | With a level, steps the silence state and copies its silence count. Starts a send iff none is in flight and `shouldSend` holds, and changes nothing else. |
| AudioRecorder.Orchestrator.BeginSend | src/components/AudioRecorder.tsx:132-135 | A no-op while a send is in flight; otherwise sets the guard and the sending status. |
| AudioRecorder.Orchestrator.SendBlob | src/components/AudioRecorder.tsx:156-170 | Pre-increments the chunk index and records the upload with index, reason, elapsed seconds and the MIME of the calling closure's render (or `audio/webm`). On success it appends the text to the transcript. |
| AudioRecorder.Orchestrator.CompleteSend | src/components/AudioRecorder.tsx:136-153 | An empty segment is not uploaded; a non-empty one is uploaded with the fallback-completed reason and the `recMime` from before the start, which the check interval's closure holds. Counters reset after a cut without error and are kept on any error, which shows its message. The guard is cleared on every outcome. |
| AudioRecorder.Orchestrator.OnStop | src/components/AudioRecorder.tsx:101-130 | Clears the timers. Uploads the final blob as `final` whatever its size, with the current `recMime`, and requests the merge only after that upload succeeds. The session ends inactive and not stopping. |
| AudioRecorder.Orchestrator.MergeNow | src/components/AudioRecorder.tsx:172-191 | Ignored while a merge runs; otherwise requests a merge for the meeting and shows its outcome. |
| AudioRecorder.InFlightBlocksSecondSend | src/components/AudioRecorder.tsx:89-92 | A check tick during a send in flight starts no second send and leaves the screen alone. |
| AudioRecorder.TwoSegmentsScenario | src/components/AudioRecorder.tsx:156-168 | Two successful periodic sends carry indices 1 and 2 and a two-line transcript, and in a first session both carry `audio/webm` even though the recorder records Ogg. |
| UseRecorder.FirstSupported | src/hooks/use-recorder.ts:65-67 | The first supported candidate, with every earlier candidate unsupported; none iff no candidate is supported. |
| UseRecorder.FirstSupportedExamples | src/hooks/use-recorder.ts:59-67 | The preference order of the four candidates on three platforms. |
| UseRecorder.Flatten | src/hooks/use-recorder.ts:128 | The concatenated blob is empty iff every part is. |
| UseRecorder.FlattenAppend | src/hooks/use-recorder.ts:128 | Concatenation distributes over appending parts. |
| UseRecorder.NonEmpty | src/hooks/use-recorder.ts:83-85 | The kept events all have data and are no more than the delivered ones. |
| UseRecorder.NonEmptyAppend | src/hooks/use-recorder.ts:83-85 | Filtering distributes over appending events, so arrival order is kept. |
| UseRecorder.FlattenNonEmpty | src/hooks/use-recorder.ts:83-128 | Dropping the empty events does not change the recorded bytes. |
| UseRecorder.ChosenMime | src/hooks/use-recorder.ts:69-82 | `rec.mimeType` or the supported candidate after the first build; `rec.mimeType` after the fallback. |
| UseRecorder.CaptureSession.constructor | src/hooks/use-recorder.ts:15-24 | Not recording, no status, zero elapsed, no recorder. |
| UseRecorder.CaptureSession.Start | src/hooks/use-recorder.ts:37-117 | Empties the buffer before the microphone. A microphone error sets its status and is rethrown with recording still off. If both builds fail, the first error's message is shown and the second thrown. Success sets recording, `Recording...`, elapsed 0, the chosen MIME and the timer. |
| UseRecorder.CaptureSession.DataAvailable | src/hooks/use-recorder.ts:83-85 | Buffers the data iff its size is positive, in arrival order. |
| UseRecorder.CaptureSession.RecorderError | src/hooks/use-recorder.ts:86-89 | The status becomes the error's message, or the generic message. |
| UseRecorder.CaptureSession.Tick | src/hooks/use-recorder.ts:116 | Elapsed grows by one. |
| UseRecorder.CaptureSession.Stop | src/hooks/use-recorder.ts:119-138 | Without an active recorder it gives an empty blob and changes nothing. Otherwise it gives the concatenation of all delivered data, typed `recMime` or `audio/webm`, and turns recording, the timer and the analyser off. |
| Persist.Existing | src/lib/storage/persist.ts:144 | The stored document when there is one, else an empty, well-formed document for the meeting at revision 0. |
| Persist.KeepNewest | src/lib/storage/persist.ts:150 | Keeps the whole list when it fits, else exactly the newest `maxKeep`; always a suffix. |
| Persist.Written | src/lib/storage/persist.ts:147-151 | The written document is for the meeting and has `latestRev` one more than before. |
| Persist.SaveRevision | src/lib/storage/persist.ts:140-151 | Nothing is written iff the newest revision has the same content; otherwise the revision is bumped. |
| Persist.LoadLatest | src/lib/storage/persist.ts:117-122 | The newest revision's content, or "" with no document or no items. |
| Persist.AppendNextWellFormed | src/lib/storage/persist.ts:147-149 | Appending the next revision keeps revisions strictly increasing and ending at `latestRev`. |
| Persist.SuffixWellFormed | src/lib/storage/persist.ts:150 | Every suffix of a well-formed history is well formed. |
| Persist.KeepNewestWellFormed | src/lib/storage/persist.ts:150 | Trimming keeps a document well formed. |
| Persist.WrittenWellFormed | src/lib/storage/persist.ts:144-151 | A save's document is well formed, so trimming never lowers `latestRev` below the kept revisions. |
| Persist.SavePreservesWellFormed | src/lib/storage/persist.ts:140-151 | Saving over a well-formed document (or none) yields a well-formed one. |
| Persist.KeepNewestOfAppend | src/lib/storage/persist.ts:149-150 | With a positive bound, the appended item is last, behind the newest of the rest, and the list is within the bound. |
| Persist.WrittenKeepsNewest | src/lib/storage/persist.ts:147-151 | After a save with `maxKeep >= 1`: at most `maxKeep` items, the new revision last, the newest suffix of the previous items before it. |
| Persist.NonPositiveBoundEmpties | src/lib/storage/persist.ts:150 | A bound of 0 or less empties the history. |
| Persist.SaveThenLoad | src/lib/storage/persist.ts:117-151 | Loading after a save of `c` gives `c`, whether or not the save wrote anything. |
| Persist.SaveIdempotent | src/lib/storage/persist.ts:145-146 | Saving the same content twice writes once. |
| Persist.InsertByRevDesc | src/lib/storage/persist.ts:181 | Insertion adds exactly the one item. |
| Persist.InsertBounded | src/lib/storage/persist.ts:181 | Insertion introduces no revision above a bound shared by the item and the list. |
| Persist.InsertKeepsSorted | src/lib/storage/persist.ts:181 | Insertion into a newest-first list keeps it newest first. |
| Persist.SortByRevDesc | src/lib/storage/persist.ts:181 | Sorting gives a permutation ordered by rev descending. |
| Persist.Reverse | src/lib/storage/persist.ts:181 | Reversal maps position i to position n-1-i. |
| Persist.InsertSmallestAtEnd | src/lib/storage/persist.ts:181 | An item older than all others goes last. |
| Persist.ReverseOfLaterRevs | src/lib/storage/persist.ts:181 | In an increasing history, reversing the tail keeps all revisions newer than the head. |
| Persist.SortOfIncreasingIsReverse | src/lib/storage/persist.ts:181 | Sorting a strictly increasing history newest first is its reversal. |
| Persist.ListRevisions | src/lib/storage/persist.ts:175-182 | A rev-descending permutation of the stored items, or [] without a document. |
| Persist.ListOfWellFormedIsReverse | src/lib/storage/persist.ts:180-181 | For a stored document the listing is the history reversed. |
| Persist.RevisionStore.constructor | src/lib/storage/persist.ts:31-33 | The store starts empty. |
| Persist.RevisionStore.SaveResultRevision | src/lib/storage/persist.ts:140-151 | Replaces the meeting's document by the saved one, or leaves the store alone for a duplicate. Every document stays well formed and keyed by its meeting. |
| Persist.RevisionStore.LoadLatestResult | src/lib/storage/persist.ts:117-122 | The newest content of the meeting's document, or "". |
| Persist.RevisionStore.ListRevisionsOf | src/lib/storage/persist.ts:175-182 | The meeting's revisions newest first, which for a stored document is its history reversed; [] for an unknown meeting. |
| SummaryPanel.MsgContent | src/components/SummaryPanel.tsx:26-36 | `raw.message.content` when it is a string, else `raw` when a string, else the text. |
| SummaryPanel.MsgContentExamples | src/components/SummaryPanel.tsx:26-36 | A string content wins; a non-string content or a string message falls back to the text. |
| SummaryPanel.Normalize | src/components/SummaryPanel.tsx:37-43 | Never longer than the content, and no escaped line feed or escaped carriage return is left. |
| SummaryPanel.NormalizeKeepsPlainText | src/components/SummaryPanel.tsx:37-43 | Text with no backslash and no CR is unchanged. |
| SummaryPanel.EscapedCrLfIsOneLineBreak | src/components/SummaryPanel.tsx:39 | An escaped CRLF becomes one line feed, not two. |
| SummaryPanel.EscapedLfIsNotEscapedCrLf | src/components/SummaryPanel.tsx:39 | The escaped-CRLF pass leaves an escaped LF alone. |
| SummaryPanel.OneEscapedLineFeed | src/components/SummaryPanel.tsx:37-43 | One escaped LF between plain texts becomes one real LF. |
| SummaryPanel.EscapedLineBreakExample | src/components/SummaryPanel.tsx:37-43 | `line1\\nline2` normalises to `line1`, LF, `line2`. |
| SummaryPanel.CrLfCanRemain | src/components/SummaryPanel.tsx:43 | A single non-overlapping pass can leave a CRLF: CR CR LF becomes CR LF. |
| SummaryPanel.Panel.constructor | src/components/SummaryPanel.tsx:8-12 | All fields empty, not running. |
| SummaryPanel.Panel.SyncValue | src/components/SummaryPanel.tsx:16-18 | A string value replaces the target; nothing else changes. |
| SummaryPanel.Panel.OnSummarize | src/components/SummaryPanel.tsx:20-54 | A blank target does nothing. Otherwise the target is sent with the previous text as context, and the result is the normalised content with an empty status, or the error as status and toast. Running ends false. |
| SummaryPanel.WhitespaceTargetIsBlank | src/components/SummaryPanel.tsx:21 | A target of spaces and line feeds trims to "". |
| TranscribeClient.InferExtension | src/lib/api/transcribe-client.ts:7-14 | After lower-casing: ogg iff it names ogg; webm iff webm and not ogg; wav iff wav and neither; m4a iff mp4/m4a/aac and none of those; always one of the five. |
| TranscribeClient.InferExtensionIgnoresCase | src/lib/api/transcribe-client.ts:8 | Types equal up to letter case get the same extension. |
| TranscribeClient.BlobTypeOf | src/lib/api/transcribe-client.ts:31 | An untyped blob is treated as `audio/webm`; a typed one keeps its type. |
| TranscribeClient.WebmWhenNoOgg | src/lib/api/transcribe-client.ts:9-10 | No ogg and a webm give the webm extension. |
| TranscribeClient.NamesWebm | src/lib/api/transcribe-client.ts:9-10 | A type with `webm` and no `g` names webm and not ogg. |
| TranscribeClient.UntypedBlobIsWebm | src/lib/api/transcribe-client.ts:31-32 | An untyped blob gets the extension webm. |
| TranscribeClient.WebmOpusExtension | src/lib/api/transcribe-client.ts:10 | The preferred recorder type gets webm. |
| TranscribeClient.OggOpusExtension | src/lib/api/transcribe-client.ts:9 | The Ogg type gets ogg. |
| TranscribeClient.MpegWhenNoEarlierMatch | src/lib/api/transcribe-client.ts:9-12 | No earlier match and mp4 give m4a. |
| TranscribeClient.NoEarlierContainer | src/lib/api/transcribe-client.ts:9-11 | A type without `g` or `w` names no ogg, webm or wav. |
| TranscribeClient.LowerCaseMp4 | src/lib/api/transcribe-client.ts:12 | A lower-case type with mp4 and no `g`/`w` gets m4a. |
| TranscribeClient.Mp4AacExtension | src/lib/api/transcribe-client.ts:12 | The AAC type gets m4a. |
| TranscribeClient.WavWhenNoEarlierMatch | src/lib/api/transcribe-client.ts:9-11 | Neither ogg nor webm, and wav, give wav. |
| TranscribeClient.NamesWavOnly | src/lib/api/transcribe-client.ts:9-11 | A type with `wav` and no `g` or `e` names wav only. |
| TranscribeClient.UpperCaseWavExtension | src/lib/api/transcribe-client.ts:8-11 | `AUDIO/WAV` is lower-cased first and gets wav. |
| TranscribeClient.EmptyTypeExtension | src/lib/api/transcribe-client.ts:13 | A type naming no container gets bin. |
| TranscribeClient.FileName | src/lib/api/transcribe-client.ts:33 | Starts with `recording-`, ends with `.` and the extension, and has room for both numbers and the dash. |
| TranscribeClient.SplitAtSeparator | src/lib/api/transcribe-client.ts:33 | Two digit runs each followed by the same separator split the same way. |
| TranscribeClient.NatToStringInjective | src/lib/api/transcribe-client.ts:33 | Different numbers render differently. |
| TranscribeClient.FileNameShape | src/lib/api/transcribe-client.ts:33 | The name is the fixed prefix, the digits, `-`, the digits, `.` and the extension. |
| TranscribeClient.FileNameInjective | src/lib/api/transcribe-client.ts:33 | A generated name determines its timestamp, sequence number and extension. |
| TranscribeClient.GeneratedNamesDistinct | src/lib/api/transcribe-client.ts:5-33 | Different sequence numbers never give the same name. |
| TranscribeClient.FieldString | src/lib/api/transcribe-client.ts:39 | `String(v)`: text as is, numbers as decimal, booleans as true/false. |
| TranscribeClient.BuildForm | src/lib/api/transcribe-client.ts:36-40 | The file first, then `filename` with its name, then each extra field as a string in entry order. |
| TranscribeClient.ApiUrlOf | src/lib/api/transcribe-client.ts:21 | The option's URL when non-empty, else the configured one. |
| TranscribeClient.AuthorizationOf | src/lib/api/transcribe-client.ts:22-47 | A bearer header iff the option's or the environment's key is non-empty; the option's key wins. |
| TranscribeClient.TimeoutOf | src/lib/api/transcribe-client.ts:23 | The option's timeout when given, else the configured one. |
| TranscribeClient.FieldNameOf | src/lib/api/transcribe-client.ts:27 | The repeated fallbacks give the configured field name, never empty. |
| TranscribeClient.FailureMessageParts | src/lib/api/transcribe-client.ts:56 | The template with empty status text and body trims down to the prefix and the code; otherwise the trimmed text keeps the prefix and the code and ends in a non-blank character. |
| TranscribeClient.FailureMessage | src/lib/api/transcribe-client.ts:56 | The trimmed message starts with `n8n request failed: ` and the status code and ends in a non-blank character; with an empty status text and body it is exactly prefix and code. |
| TranscribeClient.ParsedText | src/lib/api/transcribe-client.ts:61-65 | For an object body, `String` of the first of text, result, output that is neither null nor undefined, else ""; "" for other bodies. |
| TranscribeClient.ResponseText | src/lib/api/transcribe-client.ts:66 | The parsed text when non-empty, else the serialised body. |
| TranscribeClient.EmptyTextDoesNotFallThrough | src/lib/api/transcribe-client.ts:64-66 | An empty `text` does not fall through to `result`, a null one does; numbers are rendered; arrays give the serialised body. |
| TranscribeClient.Outcome | src/lib/api/transcribe-client.ts:42-70 | A rejection maps through the timeout rules and a failed status gives the trimmed failure message. A JSON answer gives the chosen text and the parsed data, and a JSON answer that does not parse fails with the parser's own error; any other answer gives the body as text and raw. |
| TranscribeClient.Client.constructor | src/lib/api/transcribe-client.ts:5 | The counter starts at 0. |
| TranscribeClient.Client.NameBlob | src/lib/api/transcribe-client.ts:30-35 | Pre-increments the counter, issues the new number, types the file `audio/webm` when the blob is untyped, and names it with the timestamp, the new number and the inferred extension. |
| TranscribeClient.Client.TranscribeAudio | src/lib/api/transcribe-client.ts:16-71 | A missing URL throws before any request and uses no sequence number. Otherwise it sends the form in order with the URL, header and timeout chosen above. A blob gets the next sequence number and a generated name, a file keeps its name, and the result is the reply's outcome. |
| N8nCommon.ReadEnv | src/lib/api/n8n-common.ts:11-14 | `VITE_name` when defined, even if empty, else `name`, else undefined. |
| N8nCommon.Or | src/lib/api/n8n-common.ts:18 | `a || b` keeps a non-empty `a`. |
| N8nCommon.OrElse | src/lib/api/n8n-common.ts:22 | `a || fallback` with a string fallback. |
| N8nCommon.GetRuntimeConfig | src/lib/api/n8n-common.ts:16-24 | Proxy iff `USE_PROXY` lower-cased is `true`, and then the URL is `/api/n8n`. Otherwise the primary, else the legacy variable, else "". The key flag holds iff the key is non-empty, the field name defaults to `audio`, and the timeout to 60000 when unset or empty. |
| N8nCommon.ReadEnvPrefersPrefixed | src/lib/api/n8n-common.ts:13 | An empty prefixed value is kept; the bare name is only a fallback. |
| N8nCommon.ProxyIgnoresPrimaryVar | src/lib/api/n8n-common.ts:19 | Behind the proxy the URL does not depend on the primary variable. |
| N8nCommon.ProxyFlagCaseInsensitive | src/lib/api/n8n-common.ts:17 | `TRUE` turns the proxy on. |
| N8nCommon.EmptyEnvironmentDefaults | src/lib/api/n8n-common.ts:16-24 | An empty environment: no URL, no key, 60000 ms, `audio`, no proxy. |
| N8nCommon.FetchWithTimeoutError | src/lib/api/n8n-common.ts:32-39 | AbortError gives the timeout message, a TypeError the network/CORS message, and anything else is rethrown unchanged. |
| N8nCommon.DiagnoseKind | src/lib/api/n8n-common.ts:73 | timeout iff the name is AbortError, network iff not that and a TypeError, otherwise other. |
| N8nCommon.ClassificationsAgree | src/lib/api/n8n-common.ts:33-74 | The two classifications agree, except an AbortError-named error of another class, which diagnosis calls a timeout and the fetch wrapper rethrows. |
| N8nCommon.DiagnoseConnection | src/lib/api/n8n-common.ts:50-76 | "API URL is not set" without a URL; ok iff the answer is ok; an HTTP status otherwise; a thrown error gives its message and kind. |
| N8nCommon.NoUrlMakesNoRequest | src/lib/api/n8n-common.ts:52-54 | Without a URL the network's behaviour cannot affect the result. |
| JsonValue.Get | src/lib/api/transcribe-client.ts:63-64 | A named member of an object, absent for anything else. |
| JsonValue.Coalesce | src/lib/api/transcribe-client.ts:64 | `a ?? b` keeps `a` unless it is null or undefined. |
| JsonValue.ToJsString | src/lib/api/transcribe-client.ts:64 | `String(v)`: strings unchanged, numbers in decimal, `true`/`false`, `null`, `[object Object]`; an empty array or `[null]` gives "", a one-element array the element's string. |
| JsonValue.ToJsStringCons | src/lib/api/transcribe-client.ts:64 | An array of two or more elements prints as its first element (empty for `null`), a comma, and the rest printed likewise. |
| JsonValue.ToJsStringPair | src/lib/api/transcribe-client.ts:64 | Two non-null elements print as `a,b`. |
| Strings.Lower | src/lib/api/transcribe-client.ts:8 | Same length, each ASCII capital lowered by 32, other characters kept. |
| Strings.LowerIdempotent | src/lib/api/transcribe-client.ts:8 | Lower-casing twice is lower-casing once. |
| Strings.Contains | src/lib/api/transcribe-client.ts:9 | `includes` holds iff some position starts a copy of the pattern. |
| Strings.TrimStart | src/components/SummaryPanel.tsx:21 | Drops a blank prefix and stops at a non-blank character. |
| Strings.TrimEnd | src/components/SummaryPanel.tsx:21 | Drops a blank suffix and stops at a non-blank character. |
| Strings.Trim | src/components/SummaryPanel.tsx:21 | Never longer; empty iff every character is white space, and otherwise neither starts nor ends with white space. |
| Strings.TrimKeepsContent | src/lib/api/transcribe-client.ts:56 | A text that starts and ends with a non-blank character keeps itself as the prefix when something is appended, and is the whole result when what is appended is blank. |
| Strings.NatToString | src/lib/api/transcribe-client.ts:39 | At least one digit and no leading zero. |
| Strings.NatToStringRoundTrip | src/lib/api/transcribe-client.ts:39 | Reading the digits back gives the number. |
| Strings.IntToString | src/lib/api/transcribe-client.ts:56 | A leading `-` iff negative, then the magnitude's decimal digits; a non-negative number gives `NatToString`. |
| Strings.ParseNumber | src/lib/api/n8n-common.ts:21 | A blank string is 0; a non-blank string whose trim is a digit run is that run's value; NaN iff the string is non-blank and its trim is not a digit run. |
| Strings.ParseNumberOfNatToString | src/lib/api/n8n-common.ts:21 | `Number(String(n)) == n`. |
| Strings.ReplaceAll | src/components/SummaryPanel.tsx:39-43 | Replacing by something no longer never lengthens the text; a non-empty text with a non-empty replacement stays non-empty and starts with its own first character or the replacement's. |
| Strings.ReplaceAllWithoutOccurrence | src/components/SummaryPanel.tsx:39-43 | Text without the pattern is unchanged. |
| Strings.ReplaceAllAtFront | src/components/SummaryPanel.tsx:39-43 | A leading occurrence is replaced and the scan resumes after it. |
| Strings.ReplaceAllSkipsPrefix | src/components/SummaryPanel.tsx:39-43 | A prefix lacking the pattern's first character is copied unchanged. |
| Strings.ReplaceAllSplits | src/components/SummaryPanel.tsx:39-43 | When no occurrence straddles the cut, replacing in `u + v` is replacing in `u` then in `v`. |
| Strings.ReplaceAllLeavesNoPair | src/components/SummaryPanel.tsx:39-43 | Replacing `b x` by a character other than `b` and `x` leaves no `b x` pair, and further replacements of that kind keep it so. |
| Strings.ReplaceAllWithoutLead | src/components/SummaryPanel.tsx:39-43 | Text lacking the pattern's first character is unchanged. |

## Left out

- The JSX of every component, and the waveform canvas: these are presentation only.
- Browser media APIs (`getUserMedia`, `MediaRecorder`, the AudioContext and analyser graph at src/hooks/use-recorder.ts:92-109). Their outcomes are parameters: a microphone error, the build result of the recorder, analyser availability, data events and an RMS level per tick. Stopping the media tracks and closing the audio context are not modelled.
- Timers, promises and interleaving. Each interval callback and each settled promise is one method call; there is no concurrency.
- `AudioRecorder.Orchestrator.CompleteSend`: the cut and the upload of a periodic segment settle in one event. A tick arriving between them is not modelled. The elapsed seconds an upload reports are read when the segment is sent.
- The recorder component calls `cutSegment` and `ensureAnalyser`, which the recorder hook does not return (src/hooks/use-recorder.ts:140). So the orchestrator does not embed `UseRecorder.CaptureSession`: the cut is an outcome (`SendOutcome`), and a failing `ensureAnalyser` is a start error.
- The status line that the hook and the component share through `setStatus` is kept twice: in `UseRecorder.HookState` for the hook and in `AudioRecorder.Screen` for the component. `AudioRecorder.Orchestrator.OnStart` takes the hook's status after `start` as an argument; later hook writes (the recorder's `onerror`) are not mirrored into the component's screen.
- Meeting-ID generation from `Date.now()` and `Math.random()` (src/components/AudioRecorder.tsx:28): the ID is a constructor argument.
- `Math.sqrt` is a function parameter of `SilenceCondition.ComputeRms`. Sample values are exact rationals (`real`) rather than doubles, and a NaN level is not modelled.
- `stepSilence` reads the analyser itself; here the level is an argument, computed separately by `ComputeRms`.
- `stepSilence`'s own defaults (alpha 0.95, margin 0.015) differ from the application's `silenceConfig` (0.9, 0.03). Both are kept as written.
- The component resets `silenceMsRef` after a send but not the silence state's own counter. The next check tick copies the state's value back, and the model keeps this behaviour as written.
- IndexedDB, localStorage, `JSON.parse`/`JSON.stringify` of revision documents, and `getSummaryResult`/`setSummaryResult`. A malformed stored document is not modelled. The store is a map, and `Date.now()` is a parameter.
- `JSON.stringify` of a response body is a given string (`JsonBody.Parsed`), and JSON numbers are integers.
- A `res.text()` that fails on a failed response (caught as "") is not modelled: the body is a given string.
- `options.signal` is dropped: cancellation is not modelled.
- The caller's `fields` record is a sequence in entry order, which is what `Object.entries` yields for these string keys.
- `getRuntimeConfig`'s second argument, which callers pass and the function ignores, is not modelled.
- `Strings.Lower`: lower-cases ASCII letters only; JavaScript's full Unicode case mapping is not modelled.
- `Strings.ParseNumber`: covers blank strings and digit runs; signs, decimals, exponents and hexadecimal forms of `Number(s)` are treated as NaN.
- `Strings.Trim`: the contract does not state that the result is the part of the input between its blank margins, only its emptiness, length and ends.
- `AudioRecorder.FormatTime`: covers whole non-negative seconds; fractional or negative seconds are not modelled.
- The n8n, summary and merge HTTP clients and the network plumbing of `fetchWithTimeout` (abort controller and timer) are not part of this model; only their outcomes enter it.
- The source's tests mock a client module that the component no longer imports and expect buttons it no longer renders. The model follows the component as written.
