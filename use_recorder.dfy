/**
 * The capture session behind the recorder hook: which container type is
 * requested, which data events are buffered, the recording flag and elapsed
 * counter, and the blob handed back on stop. The microphone, the recorder
 * object and the analyser graph are outside the model; what they do is passed
 * in as outcomes.
 */
module UseRecorder {
  import opened Wrappers
  import opened Media
  import opened N8nCommon

  /** The container types tried, most preferred first. */
  const Candidates: seq<string> := ["audio/webm;codecs=opus", "audio/webm", "audio/ogg;codecs=opus", "audio/mp4;codecs=aac"]

  /** `candidates.find(t => isTypeSupported(t))`. */
  function FirstSupported(candidates: seq<string>, supported: set<string>): (r: Option<string>)
    ensures r.None? <==> forall i :: 0 <= i < |candidates| ==> candidates[i] !in supported
    ensures r.Some? ==>
      exists i :: (0 <= i < |candidates| && candidates[i] == r.value && r.value in supported &&
                   forall j :: 0 <= j < i ==> candidates[j] !in supported)
  {
    if candidates == [] then None
    else if candidates[0] in supported then
      assert candidates[0] == candidates[0];
      Some(candidates[0])
    else
      var r := FirstSupported(candidates[1..], supported);
      assert forall i :: 1 <= i < |candidates| ==> candidates[i] == candidates[1..][i - 1];
      if r.Some? then
        var k :| 0 <= k < |candidates[1..]| && candidates[1..][k] == r.value && r.value in supported &&
          forall j :: 0 <= j < k ==> candidates[1..][j] !in supported;
        assert candidates[k + 1] == r.value;
        assert forall j :: 0 <= j < k + 1 ==> candidates[j] !in supported by {
          forall j | 0 <= j < k + 1 ensures candidates[j] !in supported {
            if j > 0 {
              assert candidates[j] == candidates[1..][j - 1];
            }
          }
        }
        r
      else r
  }

  /** A platform supporting only the plain WebM type gets it, not the Opus one it lacks. */
  lemma FirstSupportedExamples()
    ensures FirstSupported(Candidates, {"audio/webm", "audio/mp4;codecs=aac"}) == Some("audio/webm")
    ensures FirstSupported(Candidates, set c | c in Candidates) == Some("audio/webm;codecs=opus")
    ensures FirstSupported(Candidates, {}) == None
  {
  }

  /** The data of the blobs in order, as `new Blob(parts)` concatenates them. */
  function Flatten(parts: seq<Blob>): (r: seq<Byte>)
    ensures |r| == 0 <==> forall i :: 0 <= i < |parts| ==> parts[i].Size() == 0
  {
    if parts == [] then []
    else
      assert forall i :: 1 <= i < |parts| ==> parts[i] == parts[1..][i - 1];
      parts[0].data + Flatten(parts[1..])
  }

  lemma {:induction false} FlattenAppend(a: seq<Blob>, b: seq<Blob>)
    ensures Flatten(a + b) == Flatten(a) + Flatten(b)
  {
    if a != [] {
      assert (a + b)[1..] == a[1..] + b;
      FlattenAppend(a[1..], b);
    } else {
      assert a + b == b;
    }
  }

  /** The events `ondataavailable` keeps: those with data. */
  function NonEmpty(events: seq<Blob>): (r: seq<Blob>)
    ensures forall i :: 0 <= i < |r| ==> r[i].Size() > 0
    ensures |r| <= |events|
  {
    if events == [] then []
    else if events[0].Size() > 0 then [events[0]] + NonEmpty(events[1..])
    else NonEmpty(events[1..])
  }

  lemma {:induction false} NonEmptyAppend(a: seq<Blob>, b: seq<Blob>)
    ensures NonEmpty(a + b) == NonEmpty(a) + NonEmpty(b)
  {
    if a != [] {
      assert (a + b)[0] == a[0];
      assert (a + b)[1..] == a[1..] + b;
      NonEmptyAppend(a[1..], b);
    } else {
      assert a + b == b;
    }
  }

  /** Dropping the empty events does not change the recorded bytes. */
  lemma {:induction false} FlattenNonEmpty(events: seq<Blob>)
    ensures Flatten(NonEmpty(events)) == Flatten(events)
  {
    if events != [] {
      var head, rest := events[0], events[1..];
      FlattenNonEmpty(rest);
      assert Flatten(events) == head.data + Flatten(rest);
      if head.Size() > 0 {
        var kept := [head] + NonEmpty(rest);
        assert kept[0] == head && kept[1..] == NonEmpty(rest);
        assert Flatten(kept) == head.data + Flatten(NonEmpty(rest));
      } else {
        assert head.data == [];
      }
    }
  }

  /** The media recorder as the session sees it: none yet, or one with its type and state. */
  datatype RecorderState = NoRecorder | Recorder(mimeType: string, active: bool)

  /** `rec.mimeType || supported || ""` after a successful build, `rec.mimeType || ""` after the fallback. */
  function ChosenMime(first: Result<string, JsError>, fallback: Result<string, JsError>, supported: Option<string>): (m: string)
    requires first.Success? || fallback.Success?
    ensures first.Success? && first.value != "" ==> m == first.value
    ensures first.Success? && first.value == "" ==> m == OrElse(supported, "")
    ensures first.Failure? ==> m == fallback.value
  {
    if first.Success? then OrElse(Some(first.value), OrElse(supported, "")) else OrElse(Some(fallback.value), "")
  }

  const DefaultRecordingType := "audio/webm"

  /** The hook's `useState` values; `analyser` says whether an analyser node is exposed. */
  datatype HookState = HookState(recording: bool, status: string, elapsed: nat, recMime: string, analyser: bool)

  class CaptureSession {
    var hook: HookState
    /** `chunksRef`: the buffered data. */
    var chunks: seq<Blob>
    /** `recRef`: the media recorder. */
    var recorder: RecorderState
    /** `timerRef`: the elapsed-seconds interval is running. */
    var timerOn: bool
    /** Every data event delivered since the last `Start`, empty ones included. */
    ghost var events: seq<Blob>

    /**
     * The buffer is exactly the non-empty events; the flag, the recorder's
     * state and the elapsed timer move together.
     */
    ghost predicate Valid()
      reads this
    {
      && chunks == NonEmpty(events)
      && (hook.recording <==> recorder.Recorder? && recorder.active)
      && (hook.recording <==> timerOn)
    }

    predicate Active()
      reads this
    {
      recorder.Recorder? && recorder.active
    }

    constructor()
      ensures Valid()
      ensures hook == HookState(false, "", 0, "", false)
      ensures chunks == [] && recorder == NoRecorder && !timerOn
    {
      hook := HookState(false, "", 0, "", false);
      chunks, recorder, timerOn := [], NoRecorder, false;
      events := [];
    }

    /**
     * `start()`. `micError` is the `getUserMedia` rejection, `supported` the
     * types the platform accepts, `first` and `fallback` the outcomes of the
     * two ways of building the recorder (its `mimeType`, or the error), and
     * `analyserOk` whether the analyser graph was built. Returns what `start` throws.
     */
    method Start(micError: Option<JsError>, supported: set<string>,
                 first: Result<string, JsError>, fallback: Result<string, JsError>, analyserOk: bool)
      returns (thrown: Option<JsError>)
      requires Valid()
      modifies this`hook, this`chunks, this`events, this`recorder, this`timerOn
      ensures Valid()
      ensures chunks == [] && events == []
      ensures micError.Some? ==>
        && thrown == micError
        && hook == old(hook).(status := "Microphone error: " + micError.value.message)
        && recorder == old(recorder) && timerOn == old(timerOn)
      ensures micError.None? && first.Failure? && fallback.Failure? ==>
        && thrown == Some(fallback.error)
        && hook == old(hook).(status := "Recorder error: " + first.error.message)
        && recorder == old(recorder) && timerOn == old(timerOn)
      ensures micError.None? && (first.Success? || fallback.Success?) ==>
        && thrown == None
        && hook == HookState(true, "Recording...", 0, ChosenMime(first, fallback, FirstSupported(Candidates, supported)),
                             analyserOk || old(hook.analyser))
        && recorder == Recorder(if first.Success? then first.value else fallback.value, true)
        && timerOn
    {
      hook := hook.(status := "Accessing microphone...");
      chunks := [];
      events := [];
      if micError.Some? {
        hook := hook.(status := "Microphone error: " + micError.value.message);
        return micError;
      }
      var wanted := FirstSupported(Candidates, supported);
      var recType: string;
      if first.Success? {
        recType := first.value;
        hook := hook.(recMime := OrElse(Some(first.value), OrElse(wanted, "")));
      } else if fallback.Success? {
        recType := fallback.value;
        hook := hook.(recMime := OrElse(Some(fallback.value), ""));
      } else {
        hook := hook.(status := "Recorder error: " + first.error.message);
        return Some(fallback.error);
      }
      if analyserOk {
        hook := hook.(analyser := true);
      }
      recorder := Recorder(recType, true);
      hook := hook.(recording := true, status := "Recording...", elapsed := 0);
      timerOn := true;
      thrown := None;
    }

    /** `ondataavailable`: only data with a positive size is buffered, in arrival order. */
    method DataAvailable(data: Blob)
      requires Valid()
      modifies this`events, this`chunks
      ensures Valid()
      ensures events == old(events) + [data]
      ensures chunks == old(chunks) + (if data.Size() > 0 then [data] else [])
    {
      NonEmptyAppend(events, [data]);
      events := events + [data];
      if data.Size() > 0 {
        chunks := chunks + [data];
      }
    }

    /** `onerror`: the error's message, or a generic one. */
    method RecorderError(message: Option<string>)
      requires Valid()
      modifies this`hook
      ensures Valid()
      ensures hook == old(hook).(status := OrElse(message, "Recorder error"))
    {
      hook := hook.(status := OrElse(message, "Recorder error"));
    }

    /** The one-second interval while the timer runs. */
    method Tick()
      requires Valid() && timerOn
      modifies this`hook
      ensures Valid()
      ensures hook == old(hook).(elapsed := old(hook.elapsed) + 1)
    {
      hook := hook.(elapsed := hook.elapsed + 1);
    }

    /**
     * `stop()`. Without an active recorder it resolves an empty blob and
     * changes nothing. Otherwise the recorder delivers its last data event
     * (`flushed`), stops, and the blob of everything buffered is resolved.
     */
    method Stop(flushed: Blob) returns (blob: Blob)
      requires Valid()
      modifies this`events, this`chunks, this`recorder, this`hook, this`timerOn
      ensures Valid()
      ensures !old(Active()) ==>
        && blob == EmptyBlob
        && hook == old(hook) && chunks == old(chunks) && events == old(events)
        && recorder == old(recorder) && timerOn == old(timerOn)
      ensures old(Active()) ==>
        && events == old(events) + [flushed]
        && blob == Blob(Flatten(chunks), if hook.recMime != "" then hook.recMime else DefaultRecordingType)
        && blob.data == Flatten(events)
        && hook == old(hook).(recording := false, analyser := false)
        && !timerOn && recorder == Recorder(old(recorder).mimeType, false)
      ensures !Active()
    {
      if !Active() {
        return EmptyBlob;
      }
      DataAvailable(flushed);
      var t := if hook.recMime != "" then hook.recMime else DefaultRecordingType;
      blob := Blob(Flatten(chunks), t);
      FlattenNonEmpty(events);
      recorder := Recorder(recorder.mimeType, false);
      hook := hook.(recording := false, analyser := false);
      timerOn := false;
    }
  }
}
