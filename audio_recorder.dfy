/**
 * The recording orchestrator: the counters and flags the recorder component
 * keeps between timer callbacks, and the events that change them. A start,
 * a one-second tick, a check tick with the analyser's level, the end of a
 * segment send (cut and upload settled), a stop with its final upload and
 * merge, and an on-demand merge. Each asynchronous result is a parameter.
 */
module AudioRecorder {
  import opened Wrappers
  import opened Strings
  import opened Media
  import opened ChunksizeCondition
  import opened SilenceCondition
  import TranscribeClient
  import UseRecorder

  // ---------------------------------------------------------------------------
  // Transcript

  /** `prev ? prev + "\n" + text : text`. */
  function AppendTranscript(prev: string, text: string): (next: string)
    ensures prev == "" ==> next == text
    ensures prev != "" ==> next == prev + "\n" + text
  {
    if prev == "" then text else prev + "\n" + text
  }

  /** The transcript after the texts of the successful uploads, in order. */
  function Joined(texts: seq<string>): string {
    if texts == [] then "" else AppendTranscript(Joined(texts[..|texts| - 1]), texts[|texts| - 1])
  }

  /** The texts separated by line breaks: the reference the transcript is compared to. */
  function Lines(texts: seq<string>): string {
    if texts == [] then ""
    else if |texts| == 1 then texts[0]
    else Lines(texts[..|texts| - 1]) + "\n" + texts[|texts| - 1]
  }

  /** Once the first text is non-empty, the transcript stays non-empty. */
  lemma {:induction false} JoinedNonEmpty(texts: seq<string>)
    requires texts != [] && texts[0] != ""
    ensures Joined(texts) != ""
  {
    if |texts| > 1 {
      var front := texts[..|texts| - 1];
      assert front[0] == texts[0];
      JoinedNonEmpty(front);
    }
  }

  /**
   * When the first text is non-empty the transcript is exactly the texts
   * joined by line breaks. (An empty first text is dropped by the `prev ?`
   * test, so the second text then starts the transcript.)
   */
  lemma {:induction false} JoinedIsLines(texts: seq<string>)
    requires texts == [] || texts[0] != ""
    ensures Joined(texts) == Lines(texts)
  {
    if |texts| > 1 {
      var front := texts[..|texts| - 1];
      assert front[0] == texts[0];
      JoinedIsLines(front);
      JoinedNonEmpty(front);
    }
  }

  /** The as-written consequence of the `prev ?` test: a leading empty text leaves no blank line. */
  lemma LeadingEmptyTextVanishes(t: string)
    ensures Joined(["", t]) == t
  {
    assert ["", t][..1] == [""];
    assert [""][..0] == [];
  }

  // ---------------------------------------------------------------------------
  // Segment reason

  /** `reason(since, silentMs) || (since >= maxSeconds ? "max-seconds" : "min-seconds-and-silence")`. */
  function SegmentReason(since: int, silentMs: int): (r: string)
    ensures r == "max-seconds" <==> since >= MaxSeconds
    ensures r == "min-seconds-and-silence" <==> since < MaxSeconds
    ensures Reason(since, silentMs).Some? ==> r == Label(Reason(since, silentMs).value)
  {
    var t := Reason(since, silentMs);
    if t.Some? then Label(t.value)
    else if since >= MaxSeconds then "max-seconds"
    else "min-seconds-and-silence"
  }

  /** The fallback labels a cut as silence-triggered even when silence has not reached the threshold. */
  lemma FallbackLabelsWithoutSilence()
    ensures SegmentReason(15, 0) == "min-seconds-and-silence" && !ShouldSend(15, 0)
    ensures SegmentReason(5, 3000) == "min-seconds-and-silence" && !ShouldSend(5, 3000)
  {
  }

  // ---------------------------------------------------------------------------
  // Elapsed time display

  /** `n < 10 ? "0" + n : String(n)`. */
  function Pad(n: nat): (s: string)
    ensures n < 10 ==> s == "0" + NatToString(n)
    ensures n >= 10 ==> s == NatToString(n)
  {
    if n < 10 then "0" + NatToString(n) else NatToString(n)
  }

  /** A padded number is at least two digits and reads back as the number; below 100 it is exactly two. */
  lemma PadReadsBack(n: nat)
    ensures |Pad(n)| >= 2 && AllDigits(Pad(n)) && DigitsValue(Pad(n)) == n
    ensures n < 100 ==> |Pad(n)| == 2
  {
    NatToStringRoundTrip(n);
    if n < 10 {
      assert Pad(n)[..1] == "0";
    } else {
      assert |NatToString(n / 10)| >= 1;
      if n < 100 {
        assert |NatToString(n / 10)| == 1;
      }
    }
  }

  /**
   * `mm:ss`; minutes are not capped at 59 or 99. Whatever the length, the
   * text is the minutes' digits, a colon and two digits of seconds below 60,
   * and reading it back gives the seconds.
   */
  function FormatTime(sec: nat): (f: string)
    ensures |f| >= 5 && f[|f| - 3] == ':'
    ensures AllDigits(f[..|f| - 3]) && AllDigits(f[|f| - 2..])
    ensures DigitsValue(f[..|f| - 3]) * 60 + DigitsValue(f[|f| - 2..]) == sec
    ensures DigitsValue(f[|f| - 2..]) < 60
  {
    var m, ss := Pad(sec / 60), Pad(sec % 60);
    PadReadsBack(sec / 60);
    PadReadsBack(sec % 60);
    var f := m + ":" + ss;
    assert f[..|f| - 3] == m;
    assert f[|f| - 2..] == ss;
    f
  }

  /** Below 100 minutes the display is `mm:ss` and reads back as the seconds it shows. */
  lemma FormatTimeRoundTrip(sec: nat)
    requires sec < 6000
    ensures var f := FormatTime(sec);
      && |f| == 5 && f[2] == ':'
      && AllDigits(f[..2]) && AllDigits(f[3..])
      && DigitsValue(f[..2]) * 60 + DigitsValue(f[3..]) == sec
      && DigitsValue(f[3..]) < 60
  {
    PadReadsBack(sec / 60);
    PadReadsBack(sec % 60);
  }

  /** From 100 minutes on the minutes take three digits. */
  lemma FormatTimeLong()
    ensures FormatTime(6000) == "100:00"
  {
    assert NatToString(100) == "100";
  }

  // ---------------------------------------------------------------------------
  // Uploads

  /** One call of `sendBlob`: what it sends besides the blob. */
  datatype UploadRecord = UploadRecord(index: nat, reason: string, elapsedSeconds: int, mime: string, blob: Blob)

  /** `recMime || "audio/webm"`. */
  function MimeField(recMime: string): (m: string)
    ensures m != ""
    ensures recMime != "" ==> m == recMime
  {
    if recMime != "" then recMime else "audio/webm"
  }

  /**
   * The extra form fields of an upload, in the order the form carries them:
   * as strings, the meeting ID, the index in decimal, the reason, the elapsed
   * seconds and the type.
   */
  function UploadFields(meetingId: string, u: UploadRecord): (r: seq<(string, TranscribeClient.FieldValue)>)
    ensures |r| == 5
    ensures r[0].0 == "recording_id" && TranscribeClient.FieldString(r[0].1) == meetingId
    ensures r[1].0 == "recording_index" && TranscribeClient.FieldString(r[1].1) == NatToString(u.index)
    ensures r[2].0 == "reason" && TranscribeClient.FieldString(r[2].1) == u.reason
    ensures r[3].0 == "elapsedSeconds" && TranscribeClient.FieldString(r[3].1) == IntToString(u.elapsedSeconds)
    ensures r[4].0 == "mime" && TranscribeClient.FieldString(r[4].1) == u.mime
  {
    [ ("recording_id", TranscribeClient.FText(meetingId)),
      ("recording_index", TranscribeClient.FNumber(u.index)),
      ("reason", TranscribeClient.FText(u.reason)),
      ("elapsedSeconds", TranscribeClient.FNumber(u.elapsedSeconds)),
      ("mime", TranscribeClient.FText(u.mime)) ]
  }

  /** The extension of each of the recorder's candidate types, in the same order. */
  const CandidateExtensionNames: seq<string> := ["webm", "webm", "ogg", "m4a"]

  /**
   * Each type the recorder tries, the `k`-th candidate, is named after its
   * container: the two WebM types `.webm`, the Ogg type `.ogg` and the AAC
   * type `.m4a`; none is sent as `.bin`.
   */
  lemma CandidateExtensions(k: nat)
    requires k < |UseRecorder.Candidates|
    ensures TranscribeClient.InferExtension(UseRecorder.Candidates[k]) == CandidateExtensionNames[k]
  {
    var t := UseRecorder.Candidates[k];
    if k == 0 {
      TranscribeClient.WebmOpusExtension(t);
    } else if k == 1 {
      TranscribeClient.UntypedBlobIsWebm(t);
    } else if k == 2 {
      TranscribeClient.OggOpusExtension(t);
    } else {
      TranscribeClient.Mp4AacExtension(t);
    }
  }

  /** The server reads the index field back as the index. */
  lemma IndexFieldReadsBack(meetingId: string, u: UploadRecord)
    ensures ParseNumber(TranscribeClient.FieldString(UploadFields(meetingId, u)[1].1)) == Some(u.index)
  {
    ParseNumberOfNatToString(u.index);
  }

  /** What the cut and the upload of a periodic segment came to. */
  datatype SendOutcome =
    | CutFailed(message: string)
    | Cut(blob: Blob, upload: Result<string, string>)

  /** `mergeAudio` resolves the link (`None` or `""` when missing) or fails with a message. */
  type MergeOutcome = Result<Option<string>, string>

  predicate HasLink(m: MergeOutcome) {
    m.Success? && m.value.Some? && m.value.value != ""
  }

  /** The status a settled merge leaves. */
  function MergeStatus(m: MergeOutcome): (s: string)
    ensures HasLink(m) ==> s == "Done"
    ensures m.Success? && !HasLink(m) ==> s == "Merged, but no link returned"
    ensures m.Failure? ==> s == m.error
  {
    if m.Failure? then m.error else if HasLink(m) then "Done" else "Merged, but no link returned"
  }

  /** The values the component keeps in refs between timer callbacks. */
  datatype Refs = Refs(
    sinceLastSendSec: int,
    silenceMs: int,
    silenceState: Option<SilenceState>,
    sending: bool,
    transcript: string,
    chunkIndex: nat)

  /** The component's rendered state: flags, merged link, status line and the last toast. */
  datatype Screen = Screen(
    active: bool,
    stopping: bool,
    merging: bool,
    mergedUrl: string,
    status: string,
    toast: Option<string>)

  /** The screen after a settled merge: the status, the link when one came back, the error toast. */
  function AfterMerge(s: Screen, m: MergeOutcome): (t: Screen)
    ensures t.status == MergeStatus(m)
    ensures t.mergedUrl == if HasLink(m) then m.value.value else s.mergedUrl
    ensures t.toast == if m.Failure? then Some("Error: " + m.error) else s.toast
    ensures t.active == s.active && t.stopping == s.stopping && t.merging == s.merging
  {
    if HasLink(m) then s.(status := MergeStatus(m), mergedUrl := m.value.value)
    else if m.Failure? then s.(status := MergeStatus(m), toast := Some("Error: " + m.error))
    else s.(status := MergeStatus(m))
  }

  /** The screen after a failure caught by a `try` block: the message as status and as a toast. */
  function Failed(s: Screen, message: string): (t: Screen)
    ensures t.status == message && t.toast == Some("Error: " + message)
    ensures t.active == s.active && t.stopping == s.stopping && t.merging == s.merging && t.mergedUrl == s.mergedUrl
  {
    s.(status := message, toast := Some("Error: " + message))
  }

  class Orchestrator {
    const meetingId: string
    var refs: Refs
    var screen: Screen
    /** The recorder's chosen type, as the component reads it. */
    var recMime: string
    /**
     * The type the check interval's closure reads: the `recMime` of the
     * render in which `onStart` ran, before the hook's new type rendered.
     */
    var periodicMime: string
    /** Both intervals are running. */
    var ticking: bool
    /** Every `sendBlob` call of the session, in order. */
    ghost var uploads: seq<UploadRecord>
    /** The texts of the uploads that succeeded, in order. */
    ghost var texts: seq<string>
    /** The merge requests made, by meeting ID. */
    ghost var merges: seq<string>

    /**
     * Uploads are numbered 1, 2, 3, … in send order, the counter is the
     * number of uploads, the transcript is the successful texts joined, and
     * the counters and the silence state are non-negative and valid.
     */
    ghost predicate Valid()
      reads this
    {
      && refs.chunkIndex == |uploads|
      && (forall i :: 0 <= i < |uploads| ==> uploads[i].index == i + 1)
      && refs.transcript == Joined(texts)
      && refs.sinceLastSendSec >= 0 && refs.silenceMs >= 0
      && (refs.silenceState.Some? ==> ValidState(refs.silenceState.value))
      && (ticking ==> refs.silenceState.Some?)
    }

    constructor(id: string)
      ensures Valid() && meetingId == id
      ensures refs == Refs(0, 0, None, false, "", 0)
      ensures screen == Screen(false, false, false, "", "", None)
      ensures recMime == "" && periodicMime == ""
      ensures !ticking && uploads == [] && texts == [] && merges == []
    {
      meetingId := id;
      refs := Refs(0, 0, None, false, "", 0);
      screen := Screen(false, false, false, "", "", None);
      recMime, periodicMime, ticking := "", "", false;
      uploads, texts, merges := [], [], [];
    }

    /**
     * `onStart`. `mime` is the hook's `recMime` once `start` settled,
     * `hookStatus` the status line the hook left (`"Recording..."` after a clean
     * start, `"Microphone error: …"` or `"Recorder error: …"` after a failed
     * one), and `startError` the message of what `start` (or the analyser
     * set-up) threw. The check interval created here keeps the type of the
     * render it was created in, so periodic uploads carry the type that was
     * current before this start. The in-flight flag is not touched; the timers
     * start only after a clean start.
     */
    method OnStart(mime: string, hookStatus: string, startError: Option<string>)
      requires Valid()
      modifies this`refs, this`screen, this`recMime, this`periodicMime, this`ticking, this`uploads, this`texts
      ensures Valid()
      ensures refs == Refs(0, 0, Some(CreateSilenceState(Some(AppSilenceConfig))), old(refs.sending), "", 0)
      ensures uploads == [] && texts == [] && recMime == mime && periodicMime == old(recMime)
      ensures startError.None? ==>
        screen == old(screen).(active := true, mergedUrl := "", status := hookStatus) && ticking
      ensures startError.Some? ==>
        && screen == old(screen).(active := false, mergedUrl := "", status := hookStatus, toast := startError)
        && ticking == old(ticking)
    {
      CreatedStateValid(Some(AppSilenceConfig));
      refs := Refs(0, 0, Some(CreateSilenceState(Some(AppSilenceConfig))), refs.sending, "", 0);
      uploads, texts := [], [];
      screen := screen.(active := true, mergedUrl := "", status := hookStatus);
      periodicMime := recMime;
      recMime := mime;
      if startError.Some? {
        screen := screen.(toast := startError, active := false);
      } else {
        ticking := true;
      }
    }

    /** The one-second interval. */
    method SecondTick()
      requires Valid() && ticking
      modifies this`refs
      ensures Valid()
      ensures refs == old(refs).(sinceLastSendSec := old(refs.sinceLastSendSec) + 1)
    {
      refs := refs.(sinceLastSendSec := refs.sinceLastSendSec + 1);
    }

    /**
     * The check interval. `level` is the analyser's RMS, `None` while there
     * is no analyser. Returns whether a segment send was started.
     */
    method CheckTick(level: Option<real>) returns (started: bool)
      requires Valid() && ticking
      modifies this`refs, this`screen
      ensures Valid()
      ensures level.Some? ==>
        && refs.silenceState == Some(StepSilence(old(refs.silenceState).value, AppSilenceConfig, CheckIntervalMs, level.value).state)
        && refs.silenceMs == refs.silenceState.value.silenceMs
      ensures level.None? ==> refs.silenceState == old(refs.silenceState) && refs.silenceMs == old(refs.silenceMs)
      ensures refs == old(refs).(silenceState := refs.silenceState, silenceMs := refs.silenceMs, sending := refs.sending)
      ensures started <==> !old(refs.sending) && ShouldSend(refs.sinceLastSendSec, refs.silenceMs)
      ensures started ==> refs.sending && screen == old(screen).(status := "Sending to n8n...")
      ensures !started ==> refs.sending == old(refs.sending) && screen == old(screen)
    {
      if level.Some? {
        var prev := refs.silenceState.value;
        var next := StepSilence(prev, AppSilenceConfig, CheckIntervalMs, level.value).state;
        StepPreservesValid(prev, AppSilenceConfig, CheckIntervalMs, level.value);
        refs := refs.(silenceState := Some(next), silenceMs := next.silenceMs);
      }
      started := false;
      if !refs.sending && ShouldSend(refs.sinceLastSendSec, refs.silenceMs) {
        started := BeginSend();
      }
    }

    /** The synchronous start of `sendCurrentSegment`: a no-op while a send is in flight. */
    method BeginSend() returns (started: bool)
      requires Valid()
      modifies this`refs, this`screen
      ensures Valid()
      ensures started <==> !old(refs.sending)
      ensures refs == old(refs).(sending := true)
      ensures screen == if started then old(screen).(status := "Sending to n8n...") else old(screen)
    {
      if refs.sending {
        return false;
      }
      refs := refs.(sending := true);
      screen := screen.(status := "Sending to n8n...");
      started := true;
    }

    /**
     * `sendBlob`: numbers the upload before sending it and, when the
     * transcription succeeds, appends its text. Returns the error message if it
     * fails. `mime` is the `recMime` of the render whose closure made the call.
     */
    method SendBlob(blob: Blob, reason: string, mime: string, upload: Result<string, string>) returns (error: Option<string>)
      requires Valid()
      modifies this`refs, this`uploads, this`texts
      ensures Valid()
      ensures uploads == old(uploads) + [UploadRecord(old(refs.chunkIndex) + 1, reason, old(refs.sinceLastSendSec), MimeField(mime), blob)]
      ensures upload.Success? ==>
        && error == None && texts == old(texts) + [upload.value]
        && refs == old(refs).(chunkIndex := old(refs.chunkIndex) + 1,
                              transcript := AppendTranscript(old(refs.transcript), upload.value))
      ensures upload.Failure? ==>
        && error == Some(upload.error) && texts == old(texts)
        && refs == old(refs).(chunkIndex := old(refs.chunkIndex) + 1)
    {
      refs := refs.(chunkIndex := refs.chunkIndex + 1);
      uploads := uploads + [UploadRecord(refs.chunkIndex, reason, refs.sinceLastSendSec, MimeField(mime), blob)];
      if upload.Failure? {
        return Some(upload.error);
      }
      assert (texts + [upload.value])[..|texts|] == texts;
      texts := texts + [upload.value];
      refs := refs.(transcript := AppendTranscript(refs.transcript, upload.value));
      error := None;
    }

    /**
     * The rest of `sendCurrentSegment` once the cut and the upload have
     * settled. An empty segment is not uploaded; the counters are reset
     * after every cut that did not fail and kept when anything failed; the
     * silence state itself is never reset. The upload carries the type the
     * check interval's closure saw, `periodicMime`.
     */
    method CompleteSend(outcome: SendOutcome)
      requires Valid() && refs.sending
      modifies this`refs, this`screen, this`uploads, this`texts
      ensures Valid()
      ensures outcome.CutFailed? ==>
        && refs == old(refs).(sending := false)
        && screen == Failed(old(screen), outcome.message)
        && uploads == old(uploads) && texts == old(texts)
      ensures outcome.Cut? && outcome.blob.Size() == 0 ==>
        && refs == old(refs).(sinceLastSendSec := 0, silenceMs := 0, sending := false)
        && screen == old(screen).(status := "Recording...")
        && uploads == old(uploads) && texts == old(texts)
      ensures outcome.Cut? && outcome.blob.Size() > 0 ==>
        uploads == old(uploads) + [UploadRecord(old(refs.chunkIndex) + 1,
                                                SegmentReason(old(refs.sinceLastSendSec), old(refs.silenceMs)),
                                                old(refs.sinceLastSendSec), MimeField(periodicMime), outcome.blob)]
      ensures outcome.Cut? && outcome.blob.Size() > 0 && outcome.upload.Success? ==>
        && texts == old(texts) + [outcome.upload.value]
        && refs == old(refs).(sinceLastSendSec := 0, silenceMs := 0, sending := false,
                              chunkIndex := old(refs.chunkIndex) + 1,
                              transcript := AppendTranscript(old(refs.transcript), outcome.upload.value))
        && screen == old(screen).(status := "Recording...")
      ensures outcome.Cut? && outcome.blob.Size() > 0 && outcome.upload.Failure? ==>
        && texts == old(texts)
        && refs == old(refs).(sending := false, chunkIndex := old(refs.chunkIndex) + 1)
        && screen == Failed(old(screen), outcome.upload.error)
    {
      var error: Option<string> := None;
      match outcome {
        case CutFailed(message) =>
          error := Some(message);
        case Cut(blob, upload) =>
          if blob.Size() > 0 {
            var reason := SegmentReason(refs.sinceLastSendSec, refs.silenceMs);
            error := SendBlob(blob, reason, periodicMime, upload);
          }
      }
      if error.Some? {
        screen := Failed(screen, error.value);
      } else {
        refs := refs.(sinceLastSendSec := 0, silenceMs := 0);
        screen := screen.(status := "Recording...");
      }
      refs := refs.(sending := false);
    }

    /**
     * `onStop`: the timers are cleared first, the recorder's last blob is
     * uploaded as `"final"` whatever its size, and the merge is requested
     * only after that upload succeeded. The session is inactive afterwards.
     * The stop button's handler belongs to a render after the start, so the
     * final upload carries the current `recMime`.
     */
    method OnStop(blob: Blob, upload: Result<string, string>, merge: MergeOutcome)
      requires Valid()
      modifies this`refs, this`screen, this`uploads, this`texts, this`merges, this`ticking
      ensures Valid() && !ticking
      ensures uploads == old(uploads) + [UploadRecord(old(refs.chunkIndex) + 1, "final", old(refs.sinceLastSendSec), MimeField(recMime), blob)]
      ensures upload.Success? ==>
        && texts == old(texts) + [upload.value]
        && refs == old(refs).(chunkIndex := old(refs.chunkIndex) + 1,
                              transcript := AppendTranscript(old(refs.transcript), upload.value))
        && merges == old(merges) + [meetingId]
        && screen == AfterMerge(old(screen), merge).(active := false, stopping := false)
      ensures upload.Failure? ==>
        && texts == old(texts) && merges == old(merges)
        && refs == old(refs).(chunkIndex := old(refs.chunkIndex) + 1)
        && screen == Failed(old(screen), upload.error).(active := false, stopping := false)
    {
      ticking := false;
      screen := screen.(stopping := true, status := "Sending final segment...");
      var error := SendBlob(blob, "final", recMime, upload);
      if error.Some? {
        screen := Failed(screen, error.value);
      } else {
        screen := screen.(status := "Merging audio...");
        merges := merges + [meetingId];
        screen := AfterMerge(screen, merge);
      }
      screen := screen.(active := false, stopping := false);
    }

    /** `mergeNow`: a merge on demand, ignored while one is running. */
    method MergeNow(merge: MergeOutcome)
      requires Valid()
      modifies this`screen, this`merges
      ensures Valid()
      ensures old(screen.merging) ==> screen == old(screen) && merges == old(merges)
      ensures !old(screen.merging) ==>
        && merges == old(merges) + [meetingId]
        && screen == AfterMerge(old(screen), merge)
    {
      if screen.merging {
        return;
      }
      screen := screen.(merging := true, status := "Merging audio...");
      merges := merges + [meetingId];
      screen := AfterMerge(screen, merge).(merging := false);
    }
  }

  /** A check tick during a send in flight never starts a second one. */
  method InFlightBlocksSecondSend(o: Orchestrator, level: Option<real>) returns (started: bool)
    requires o.Valid() && o.ticking && o.refs.sending
    modifies o`refs, o`screen
    ensures !started && o.refs.sending && o.screen == old(o.screen)
  {
    started := o.CheckTick(level);
  }

  /**
   * Two successful periodic sends in one first session: the uploads carry
   * indices 1 and 2, and the transcript is the two texts on two lines. The
   * recorder chose Ogg, but the check interval was created before that type
   * rendered, so both periodic uploads are labelled with the WebM default.
   */
  method TwoSegmentsScenario(a: string, b: string, seg1: Blob, seg2: Blob) returns (o: Orchestrator)
    requires a != "" && seg1.Size() > 0 && seg2.Size() > 0
    ensures o.Valid() && o.refs.chunkIndex == 2
    ensures o.uploads[0].index == 1 && o.uploads[1].index == 2
    ensures o.refs.transcript == a + "\n" + b
    ensures o.uploads[0].mime == "audio/webm" && o.uploads[1].mime == "audio/webm"
  {
    o := new Orchestrator("meeting");
    o.OnStart("audio/ogg;codecs=opus", "Recording...", None);
    var started := o.BeginSend();
    o.CompleteSend(Cut(seg1, Success(a)));
    started := o.BeginSend();
    o.CompleteSend(Cut(seg2, Success(b)));
  }
}
