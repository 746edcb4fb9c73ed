/**
 * The summary panel's logic: pick the summary text out of the workflow
 * engine's answer, turn escaped line breaks into real ones, and update the
 * panel's state when the Summarize button is pressed.
 */
module SummaryPanel {
  import opened Wrappers
  import opened Strings
  import opened JsonValue
  import opened N8nCommon

  /** What `summarizeText` resolves: a text and the raw answer body. */
  datatype SummaryOutput = SummaryOutput(text: string, raw: Json)

  /** `raw.message.content` when it is present and a string. */
  predicate HasMessageContent(raw: Json) {
    var m := Get(raw, "message");
    && m.Some? && IsObjectLike(m.value)
    && Get(m.value, "content").Some? && Get(m.value, "content").value.JString?
  }

  /** `msgContent`: the message content, else a string body, else the text. */
  function MsgContent(out: SummaryOutput): (c: string)
    ensures HasMessageContent(out.raw) ==> c == Get(Get(out.raw, "message").value, "content").value.s
    ensures !HasMessageContent(out.raw) && out.raw.JString? ==> c == out.raw.s
    ensures !HasMessageContent(out.raw) && !out.raw.JString? ==> c == out.text
  {
    if HasMessageContent(out.raw) then Get(Get(out.raw, "message").value, "content").value.s
    else if out.raw.JString? then out.raw.s
    else out.text
  }

  /** A chat-style answer wins over the text; a content that is not a string does not. */
  lemma MsgContentExamples(t: string, c: string)
    ensures MsgContent(SummaryOutput(t, JObject(map["message" := JObject(map["content" := JString(c)])]))) == c
    ensures MsgContent(SummaryOutput(t, JObject(map["message" := JObject(map["content" := JNumber(1)])]))) == t
    ensures MsgContent(SummaryOutput(t, JObject(map["message" := JString(c)]))) == t
    ensures MsgContent(SummaryOutput(t, JString(c))) == c
    ensures MsgContent(SummaryOutput(t, JNull)) == t
  {
    var inner := JObject(map["content" := JNumber(1)]);
    assert Get(JObject(map["message" := inner]), "message") == Some(inner);
  }

  // ---------------------------------------------------------------------------
  // Line-break normalisation

  /** A backslash followed by `r`, then by `n`: four characters. */
  const EscapedCrLf := "\\r\\n"
  const EscapedLf := "\\n"
  const EscapedCr := "\\r"
  const CrLf := "\r\n"
  const Lf := "\n"

  /**
   * The replace chain: escaped CRLF, escaped LF, escaped CR, then real CRLF,
   * each to LF. The text never grows, and no escaped line break survives:
   * no backslash is left directly before an `n` or an `r`.
   */
  function Normalize(s: string): (r: string)
    ensures |r| <= |s|
    ensures NoPair(r, '\\', 'n') && NoPair(r, '\\', 'r')
  {
    var a := ReplaceAll(s, EscapedCrLf, Lf);
    var b := ReplaceAll(a, EscapedLf, Lf);
    ReplaceAllLeavesNoPair(a, EscapedLf, '\n', '\\', 'n');
    var c := ReplaceAll(b, EscapedCr, Lf);
    ReplaceAllLeavesNoPair(b, EscapedCr, '\n', '\\', 'n');
    ReplaceAllLeavesNoPair(b, EscapedCr, '\n', '\\', 'r');
    ReplaceAllLeavesNoPair(c, CrLf, '\n', '\\', 'n');
    ReplaceAllLeavesNoPair(c, CrLf, '\n', '\\', 'r');
    ReplaceAll(c, CrLf, Lf)
  }

  /** Text with no backslash and no carriage return passes through unchanged. */
  lemma NormalizeKeepsPlainText(s: string)
    requires '\\' !in s && '\r' !in s
    ensures Normalize(s) == s
  {
    ReplaceAllWithoutLead(s, EscapedCrLf, Lf);
    ReplaceAllWithoutLead(s, EscapedLf, Lf);
    ReplaceAllWithoutLead(s, EscapedCr, Lf);
    ReplaceAllWithoutLead(s, CrLf, Lf);
  }

  /** An escaped CRLF becomes one line break, not two. */
  lemma EscapedCrLfIsOneLineBreak()
    ensures Normalize(EscapedCrLf) == "\n"
  {
    assert ReplaceAll(EscapedCrLf, EscapedCrLf, Lf) == Lf;
    ReplaceAllWithoutLead(Lf, EscapedLf, Lf);
    ReplaceAllWithoutLead(Lf, EscapedCr, Lf);
    ReplaceAllWithoutLead(Lf, CrLf, Lf);
  }

  /** The escaped-CRLF pass leaves an escaped line feed alone. */
  lemma EscapedLfIsNotEscapedCrLf(v: string)
    requires '\\' !in v
    ensures ReplaceAll(EscapedLf + v, EscapedCrLf, Lf) == EscapedLf + v
  {
    var w := EscapedLf + v;
    if |w| >= |EscapedCrLf| {
      assert w[..|EscapedCrLf|][1] == 'n';
      assert w[1..] == "n" + v;
      ReplaceAllWithoutLead(w[1..], EscapedCrLf, Lf);
      assert w == [w[0]] + w[1..];
    }
  }

  /** One escaped line feed between plain texts becomes one real line feed. */
  lemma OneEscapedLineFeed(u: string, v: string)
    requires '\\' !in u && '\\' !in v && '\r' !in u && '\r' !in v
    ensures Normalize(u + EscapedLf + v) == u + Lf + v
  {
    var s := u + EscapedLf + v;
    assert s == u + (EscapedLf + v);
    ReplaceAllSkipsPrefix(u, EscapedLf + v, EscapedCrLf, Lf);
    EscapedLfIsNotEscapedCrLf(v);
    ReplaceAllSkipsPrefix(u, EscapedLf + v, EscapedLf, Lf);
    ReplaceAllAtFront(EscapedLf, v, Lf);
    ReplaceAllWithoutLead(v, EscapedLf, Lf);
    var t := u + (Lf + v);
    assert t == u + Lf + v;
    ReplaceAllWithoutLead(t, EscapedCr, Lf);
    ReplaceAllWithoutLead(t, CrLf, Lf);
  }

  /** The escaped line break a chat answer carries becomes a real one. */
  lemma EscapedLineBreakExample(s: string, t: string)
    requires s == "line1\\nline2" && t == "line1\nline2"
    ensures Normalize(s) == t
  {
    var u, v := "line1", "line2";
    assert s == u + EscapedLf + v;
    assert t == u + Lf + v;
    OneEscapedLineFeed(u, v);
  }

  /**
   * One pass of the CRLF replacement can leave a CRLF behind: a carriage
   * return before a CRLF is kept and meets the line feed that replaces it.
   */
  lemma CrLfCanRemain()
    ensures Normalize("\r\r\n") == "\r\n"
  {
    var s := "\r\r\n";
    ReplaceAllWithoutLead(s, EscapedCrLf, Lf);
    ReplaceAllWithoutLead(s, EscapedLf, Lf);
    ReplaceAllWithoutLead(s, EscapedCr, Lf);
    assert ReplaceAll(s, CrLf, Lf) == "\r\n";
  }

  // ---------------------------------------------------------------------------
  // The panel

  /** The panel's state; `requests` records the calls made to the summary endpoint. */
  class Panel {
    var target: string
    var previous: string
    var result: string
    var status: string
    var running: bool
    var toast: Option<string>
    ghost var requests: seq<(string, string)>

    constructor()
      ensures target == "" && previous == "" && result == "" && status == "" && !running
      ensures toast == None && requests == []
    {
      target, previous, result, status, running := "", "", "", "", false;
      toast := None;
      requests := [];
    }

    /** The controlled `value` prop, when a string, replaces the target. */
    method SyncValue(value: Option<string>)
      modifies this
      ensures target == if value.Some? then value.value else old(target)
      ensures previous == old(previous) && result == old(result) && status == old(status)
      ensures running == old(running) && toast == old(toast) && requests == old(requests)
    {
      if value.Some? {
        target := value.value;
      }
    }

    /**
     * `onSummarize`, with the call's settled outcome as a parameter. A blank
     * target (`!target.trim()`, which by `Trim`'s contract is `IsBlank`) does nothing; otherwise the target is sent with the previous
     * content as `context`, and the panel shows the normalised summary or the
     * error.
     */
    method OnSummarize(outcome: Result<SummaryOutput, JsError>)
      requires !running
      modifies this
      ensures old(IsBlank(target)) ==>
        && result == old(result) && status == old(status) && toast == old(toast)
        && requests == old(requests) && !running
      ensures !old(IsBlank(target)) ==> requests == old(requests) + [(old(target), old(previous))] && !running
      ensures !old(IsBlank(target)) && outcome.Success? ==>
        result == Normalize(MsgContent(outcome.value)) && status == "" && toast == old(toast)
      ensures !old(IsBlank(target)) && outcome.Failure? ==>
        result == old(result) && status == outcome.error.message && toast == Some("Error: " + outcome.error.message)
      ensures target == old(target) && previous == old(previous)
    {
      if IsBlank(target) {
        return;
      }
      running := true;
      status := "Summarizing...";
      requests := requests + [(target, previous)];
      match outcome {
        case Success(out) =>
          var text := Normalize(MsgContent(out));
          result := text;
          status := "";
        case Failure(err) =>
          status := err.message;
          toast := Some("Error: " + err.message);
      }
      running := false;
    }
  }

  /** A whitespace-only target is blank: pressing Summarize then sends nothing. */
  lemma WhitespaceTargetIsBlank(target: string)
    requires forall i :: 0 <= i < |target| ==> target[i] == ' ' || target[i] == '\n'
    ensures Trim(target) == ""
  {
  }
}
