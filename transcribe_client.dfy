/**
 * The transcription request: the file name and extension chosen for a blob,
 * the multipart form (file, `filename`, then the caller's fields), and the
 * text the client extracts from the workflow engine's answer.
 */
module TranscribeClient {
  import opened Wrappers
  import opened Strings
  import opened Media
  import opened JsonValue
  import opened N8nCommon

  // ---------------------------------------------------------------------------
  // File extension and name

  /** `inferExtension`: the first known container named in the lower-cased MIME type. */
  function InferExtension(mime: string): (ext: string)
    ensures ext == "ogg" <==> Contains(Lower(mime), "ogg")
    ensures ext == "webm" <==> !Contains(Lower(mime), "ogg") && Contains(Lower(mime), "webm")
    ensures ext == "wav" <==>
      !Contains(Lower(mime), "ogg") && !Contains(Lower(mime), "webm") && Contains(Lower(mime), "wav")
    ensures ext == "m4a" <==>
      !Contains(Lower(mime), "ogg") && !Contains(Lower(mime), "webm") && !Contains(Lower(mime), "wav") &&
      (Contains(Lower(mime), "mp4") || Contains(Lower(mime), "m4a") || Contains(Lower(mime), "aac"))
    ensures ext in {"ogg", "webm", "wav", "m4a", "bin"}
  {
    var t := Lower(mime);
    if Contains(t, "ogg") then "ogg"
    else if Contains(t, "webm") then "webm"
    else if Contains(t, "wav") then "wav"
    else if Contains(t, "mp4") || Contains(t, "m4a") || Contains(t, "aac") then "m4a"
    else "bin"
  }

  /** Letter case never changes the extension. */
  lemma InferExtensionIgnoresCase(a: string, b: string)
    requires Lower(a) == Lower(b)
    ensures InferExtension(a) == InferExtension(b)
  {
  }

  /** The blob type used when a blob has none. */
  const DefaultBlobType := "audio/webm"

  function BlobTypeOf(blobType: string): (t: string)
    ensures blobType != "" ==> t == blobType
    ensures blobType == "" ==> t == DefaultBlobType
  {
    if blobType != "" then blobType else DefaultBlobType
  }

  /** What decides `.webm`: no Ogg container named, and WebM named. */
  lemma WebmWhenNoOgg(mime: string, t: string)
    requires Lower(mime) == t
    requires !Contains(t, "ogg") && Contains(t, "webm")
    ensures InferExtension(mime) == "webm"
  {
  }

  /** A lower-case type with a `webm` at `k` and no `g` before it names only WebM of the first two. */
  lemma NamesWebm(t: string, k: nat)
    requires k + 4 <= |t| && t[k..k + 4] == "webm" && 'g' !in t
    ensures !Contains(t, "ogg") && Contains(t, "webm")
  {
    MissingCharExcludes(t, "ogg", 1);
    assert OccursAt(t, "webm", k);
  }

  /** An untyped blob is sent as WebM. */
  lemma UntypedBlobIsWebm(w: string)
    requires w == BlobTypeOf("")
    ensures InferExtension(w) == "webm"
  {
    assert w == "audio/webm";
    LowerOfLowerCase(w);
    NamesWebm(w, 6);
    WebmWhenNoOgg(w, w);
  }

  /** The recorder's preferred WebM type is named `.webm`. */
  lemma WebmOpusExtension(mime: string)
    requires mime == "audio/webm;codecs=opus"
    ensures InferExtension(mime) == "webm"
  {
    LowerOfLowerCase(mime);
    NamesWebm(mime, 6);
    WebmWhenNoOgg(mime, mime);
  }

  /** The Ogg fallback is named `.ogg`. */
  lemma OggOpusExtension(mime: string)
    requires mime == "audio/ogg;codecs=opus"
    ensures InferExtension(mime) == "ogg"
  {
    LowerOfLowerCase(mime);
    assert OccursAt(mime, "ogg", 6);
  }

  /** What decides `.m4a`: no earlier container matched and `mp4` did. */
  lemma MpegWhenNoEarlierMatch(mime: string, t: string)
    requires Lower(mime) == t
    requires !Contains(t, "ogg") && !Contains(t, "webm") && !Contains(t, "wav") && Contains(t, "mp4")
    ensures InferExtension(mime) == "m4a"
  {
  }

  /** A lower-case type without `g` or `w` names neither an Ogg, a WebM nor a WAV container. */
  lemma NoEarlierContainer(t: string)
    requires 'g' !in t && 'w' !in t
    ensures !Contains(t, "ogg") && !Contains(t, "webm") && !Contains(t, "wav")
  {
    MissingCharExcludes(t, "ogg", 1);
    MissingCharExcludes(t, "webm", 0);
    MissingCharExcludes(t, "wav", 0);
  }

  /** A lower-case type naming `mp4` and no `g` or `w` is named `.m4a`. */
  lemma LowerCaseMp4(mime: string, k: nat)
    requires forall i :: 0 <= i < |mime| ==> !IsUpper(mime[i])
    requires 'g' !in mime && 'w' !in mime
    requires k + 3 <= |mime| && mime[k..k + 3] == "mp4"
    ensures InferExtension(mime) == "m4a"
  {
    LowerOfLowerCase(mime);
    NoEarlierContainer(mime);
    assert OccursAt(mime, "mp4", k);
    MpegWhenNoEarlierMatch(mime, mime);
  }

  /** MP4 audio with AAC is named `.m4a`. */
  lemma Mp4AacExtension(mime: string)
    requires mime == "audio/mp4;codecs=aac"
    ensures InferExtension(mime) == "m4a"
  {
    assert mime[6..9] == "mp4";
    assert 'g' !in mime && 'w' !in mime;
    LowerCaseMp4(mime, 6);
  }

  /** What decides `.wav`: neither Ogg nor WebM named, and WAV named. */
  lemma WavWhenNoEarlierMatch(mime: string, t: string)
    requires Lower(mime) == t
    requires !Contains(t, "ogg") && !Contains(t, "webm") && Contains(t, "wav")
    ensures InferExtension(mime) == "wav"
  {
  }

  /** A type with `wav` at `k` and no `g` or `e` names WAV and neither Ogg nor WebM. */
  lemma NamesWavOnly(t: string, k: nat)
    requires 'g' !in t && 'e' !in t
    requires k + 3 <= |t| && t[k..k + 3] == "wav"
    ensures !Contains(t, "ogg") && !Contains(t, "webm") && Contains(t, "wav")
  {
    MissingCharExcludes(t, "ogg", 1);
    MissingCharExcludes(t, "webm", 1);
    assert OccursAt(t, "wav", k);
  }

  /** Capitals are lower-cased before matching. */
  lemma UpperCaseWavExtension(mime: string)
    requires mime == "AUDIO/WAV"
    ensures InferExtension(mime) == "wav"
  {
    var wv := Lower(mime);
    assert wv == "audio/wav";
    assert wv[6..9] == "wav";
    NamesWavOnly(wv, 6);
    WavWhenNoEarlierMatch(mime, wv);
  }

  /** A type naming no known container is `.bin`. */
  lemma EmptyTypeExtension()
    ensures InferExtension("") == "bin"
  {
    assert Lower("") == "";
  }

  /**
   * `recording-<Date.now()>-<sequence>.<ext>`: the fixed prefix, at least one
   * digit for each number, and the extension after a dot at the end.
   */
  function FileName(now: nat, fileSeq: nat, ext: string): (name: string)
    ensures |name| >= 14 + |ext|
    ensures name[..10] == "recording-"
    ensures name[|name| - |ext| - 1..] == "." + ext
  {
    "recording-" + NatToString(now) + "-" + NatToString(fileSeq) + "." + ext
  }

  /** Two digit runs followed by the same non-digit separator split the same way. */
  lemma SplitAtSeparator(a: string, b: string, c: string, d: string, sep: char)
    requires AllDigits(a) && AllDigits(c) && !IsDigit(sep)
    requires a + [sep] + b == c + [sep] + d
    ensures a == c && b == d
  {
    var s := a + [sep] + b;
    assert |a| == |c| by {
      assert s[|a|] == sep;
      assert (c + [sep] + d)[|c|] == sep;
    }
    assert a == s[..|a|] == c;
    assert b == s[|a| + 1..] == d;
  }

  /** Decimal rendering is injective. */
  lemma NatToStringInjective(m: nat, n: nat)
    requires NatToString(m) == NatToString(n)
    ensures m == n
  {
    NatToStringRoundTrip(m);
    NatToStringRoundTrip(n);
  }

  /** The name as the fixed prefix followed by the digits and separators. */
  lemma FileNameShape(n: nat, q: nat, e: string)
    ensures FileName(n, q, e) == "recording-" + (NatToString(n) + ['-'] + (NatToString(q) + ['.'] + e))
  {
  }

  /** Equal strings with the same prefix have the same rest. */
  lemma SamePrefixSameRest(p: string, t1: string, t2: string)
    requires p + t1 == p + t2
    ensures t1 == t2
  {
    assert t1 == (p + t1)[|p|..];
    assert t2 == (p + t2)[|p|..];
  }

  /** A generated file name determines its timestamp, sequence number and extension. */
  lemma FileNameInjective(n1: nat, q1: nat, e1: string, n2: nat, q2: nat, e2: string)
    requires FileName(n1, q1, e1) == FileName(n2, q2, e2)
    ensures n1 == n2 && q1 == q2 && e1 == e2
  {
    var a1, b1 := NatToString(n1), NatToString(q1);
    var a2, b2 := NatToString(n2), NatToString(q2);
    FileNameShape(n1, q1, e1);
    FileNameShape(n2, q2, e2);
    SamePrefixSameRest("recording-", a1 + ['-'] + (b1 + ['.'] + e1), a2 + ['-'] + (b2 + ['.'] + e2));
    SplitAtSeparator(a1, b1 + ['.'] + e1, a2, b2 + ['.'] + e2, '-');
    SplitAtSeparator(b1, e1, b2, e2, '.');
    NatToStringInjective(n1, n2);
    NatToStringInjective(q1, q2);
  }

  // ---------------------------------------------------------------------------
  // The form

  /** A value of the caller's `fields` record. */
  datatype FieldValue = FText(s: string) | FNumber(n: int) | FBool(b: bool)

  /** `String(v)`. */
  function FieldString(v: FieldValue): (s: string)
    ensures v.FText? ==> s == v.s
    ensures v.FNumber? ==> s == IntToString(v.n)
    ensures v.FBool? ==> (s == "true" <==> v.b) && (s == "false" <==> !v.b)
  {
    match v
    case FText(t) => t
    case FNumber(n) => IntToString(n)
    case FBool(b) => if b then "true" else "false"
  }

  datatype FormEntry =
    | FileEntry(field: string, fileName: string, mimeType: string, data: seq<Byte>)
    | TextEntry(field: string, value: string)

  /**
   * The form as sent: the file under the upload field name, then its name
   * under `filename`, then each extra field converted to a string, in order.
   */
  method BuildForm(fieldName: string, fileName: string, file: Blob, fields: seq<(string, FieldValue)>)
    returns (form: seq<FormEntry>)
    ensures |form| == 2 + |fields|
    ensures form[0] == FileEntry(fieldName, fileName, file.mimeType, file.data)
    ensures form[1] == TextEntry("filename", fileName)
    ensures forall i :: 0 <= i < |fields| ==> form[2 + i] == TextEntry(fields[i].0, FieldString(fields[i].1))
  {
    form := [FileEntry(fieldName, fileName, file.mimeType, file.data), TextEntry("filename", fileName)];
    var i := 0;
    while i < |fields|
      invariant 0 <= i <= |fields|
      invariant |form| == 2 + i
      invariant form[0] == FileEntry(fieldName, fileName, file.mimeType, file.data)
      invariant form[1] == TextEntry("filename", fileName)
      invariant forall k :: 0 <= k < i ==> form[2 + k] == TextEntry(fields[k].0, FieldString(fields[k].1))
    {
      form := form + [TextEntry(fields[i].0, FieldString(fields[i].1))];
      i := i + 1;
    }
  }

  // ---------------------------------------------------------------------------
  // Configuration of one call

  /** The argument: a `File` keeps its own name; a plain `Blob` gets a generated one. */
  datatype Upload = UploadFile(name: string, file: Blob) | UploadBlob(blob: Blob)

  /** `None` for an option the caller leaves `undefined`. */
  datatype TranscribeOptions = TranscribeOptions(
    apiUrl: Option<string>,
    apiKey: Option<string>,
    timeoutMs: Option<nat>,
    fields: seq<(string, FieldValue)>)

  const PrimaryVar := "N8N_TRANSCRIBE_URL"
  const MissingUrlMessage := "N8N_TRANSCRIBE_URL is not set"

  function ApiUrlOf(options: TranscribeOptions, env: Env): (url: string)
    ensures Truthy(options.apiUrl) ==> url == options.apiUrl.value
    ensures !Truthy(options.apiUrl) ==> url == GetRuntimeConfig(env, PrimaryVar).apiUrl
  {
    OrElse(options.apiUrl, GetRuntimeConfig(env, PrimaryVar).apiUrl)
  }

  /** `options.apiKey || (readEnv("N8N_API_KEY") || undefined)`, as the header it produces. */
  function AuthorizationOf(options: TranscribeOptions, env: Env): (h: Option<string>)
    ensures h.Some? <==> Truthy(options.apiKey) || Truthy(ReadEnv(env, "N8N_API_KEY"))
    ensures Truthy(options.apiKey) ==> h == Some("Bearer " + options.apiKey.value)
  {
    var key := Or(options.apiKey, ReadEnv(env, "N8N_API_KEY"));
    if Truthy(key) then Some("Bearer " + key.value) else None
  }

  /** `options.timeoutMs ?? cfg.timeoutMs`; `None` in the result is NaN. */
  function TimeoutOf(options: TranscribeOptions, env: Env): (t: Option<nat>)
    ensures options.timeoutMs.Some? ==> t == options.timeoutMs
    ensures options.timeoutMs.None? ==> t == GetRuntimeConfig(env, PrimaryVar).timeoutMs
  {
    if options.timeoutMs.Some? then options.timeoutMs else GetRuntimeConfig(env, PrimaryVar).timeoutMs
  }

  /**
   * `readEnv("UPLOAD_FIELD_NAME") || cfg.fieldName || "audio"`. The repeated
   * fallbacks agree with the configuration's own, and the name is never empty.
   */
  function FieldNameOf(env: Env): (name: string)
    ensures name == GetRuntimeConfig(env, PrimaryVar).fieldName
    ensures name != ""
  {
    OrElse(Or(ReadEnv(env, "UPLOAD_FIELD_NAME"), Some(GetRuntimeConfig(env, PrimaryVar).fieldName)), DefaultFieldName)
  }

  datatype Request = Request(url: string, form: seq<FormEntry>, authorization: Option<string>, timeoutMs: Option<nat>)

  // ---------------------------------------------------------------------------
  // The answer

  /** `res.json()`: the parsed value with its `JSON.stringify` form, or the error it throws. */
  datatype JsonBody = Parsed(data: Json, serialized: string) | Unparsable(error: JsError)

  datatype HttpResponse = HttpResponse(
    ok: bool, status: int, statusText: string,
    contentType: Option<string>, body: string, json: JsonBody)

  /** What `fetchWithTimeout` does with the request. */
  datatype ServerReply = Answered(response: HttpResponse) | Rejected(error: JsError)

  datatype TranscribeResult = TranscribeResult(text: string, raw: Json)

  /** `String(rec.text ?? rec.result ?? rec.output ?? "")` for an object body, else `""`. */
  function ParsedText(data: Json): (t: string)
    ensures !IsObjectLike(data) ==> t == ""
    ensures IsObjectLike(data) && IsPresent(Get(data, "text")) ==> t == ToJsString(Get(data, "text").value)
    ensures IsObjectLike(data) && !IsPresent(Get(data, "text")) && IsPresent(Get(data, "result")) ==>
      t == ToJsString(Get(data, "result").value)
    ensures (IsObjectLike(data) && !IsPresent(Get(data, "text")) && !IsPresent(Get(data, "result")) &&
             IsPresent(Get(data, "output"))) ==> t == ToJsString(Get(data, "output").value)
    ensures !IsPresent(Get(data, "text")) && !IsPresent(Get(data, "result")) && !IsPresent(Get(data, "output")) ==>
      t == ""
  {
    if IsObjectLike(data) then
      var v := Coalesce(Coalesce(Coalesce(Get(data, "text"), Get(data, "result")), Get(data, "output")), Some(JString("")));
      ToJsString(v.value)
    else ""
  }

  /** `parsedText || JSON.stringify(data)`. */
  function ResponseText(data: Json, serialized: string): (t: string)
    ensures ParsedText(data) != "" ==> t == ParsedText(data)
    ensures ParsedText(data) == "" ==> t == serialized
  {
    if ParsedText(data) != "" then ParsedText(data) else serialized
  }

  /** Only `null` and `undefined` fall through: an empty `text` is not replaced by `result`. */
  lemma EmptyTextDoesNotFallThrough(serialized: string)
    ensures ResponseText(JObject(map["text" := JString(""), "result" := JString("x")]), serialized) == serialized
    ensures ResponseText(JObject(map["text" := JNull, "result" := JString("x")]), serialized) == "x"
    ensures ResponseText(JObject(map["output" := JNumber(7)]), serialized) == "7"
    ensures ResponseText(JArray([JString("x")]), serialized) == serialized
  {
    assert Get(JObject(map["output" := JNumber(7)]), "text") == None;
  }

  const FailurePrefix := "n8n request failed: "

  /**
   * `` `n8n request failed: ${status} ${statusText} ${text}`.trim() ``: the
   * prefix and the status code always survive the trim, the message never
   * ends in white space, and with an empty status text and body it is just
   * the prefix and the code.
   */
  function FailureMessage(status: int, statusText: string, body: string): (m: string)
    ensures |m| >= |FailurePrefix| + |IntToString(status)|
    ensures m[..|FailurePrefix| + |IntToString(status)|] == FailurePrefix + IntToString(status)
    ensures !IsJsWhitespace(m[|m| - 1])
    ensures statusText == "" && body == "" ==> m == FailurePrefix + IntToString(status)
  {
    FailureMessageParts(IntToString(status), statusText, body);
    Trim(FailurePrefix + IntToString(status) + (" " + statusText + " " + body))
  }

  /** The trim keeps the prefix and a code that ends in a digit, and drops the blanks after them. */
  lemma FailureMessageParts(code: string, statusText: string, body: string)
    requires |code| >= 1 && IsDigit(code[|code| - 1])
    ensures var p := FailurePrefix + code; var m := Trim(p + (" " + statusText + " " + body));
      && |m| >= |p| && m[..|p|] == p && !IsJsWhitespace(m[|m| - 1])
      && (statusText == "" && body == "" ==> m == p)
  {
    var p := FailurePrefix + code;
    var w := " " + statusText + " " + body;
    assert p[0] == 'n';
    assert p[|p| - 1] == code[|code| - 1];
    DigitIsNotWhitespace(p[|p| - 1]);
    TrimKeepsContent(p, w);
    assert statusText == "" && body == "" ==> w == "  ";
  }

  /** What the call resolves or throws once `fetchWithTimeout` has settled. */
  function Outcome(reply: ServerReply): (r: Result<TranscribeResult, JsError>)
    ensures reply.Rejected? ==> r == Failure(FetchWithTimeoutError(reply.error))
    ensures reply.Answered? && !reply.response.ok ==>
      r == Failure(PlainError(FailureMessage(reply.response.status, reply.response.statusText, reply.response.body)))
    ensures r.Success? <==>
      reply.Answered? && reply.response.ok &&
      (Contains(OrElse(reply.response.contentType, ""), "application/json") ==> reply.response.json.Parsed?)
    ensures reply.Answered? && reply.response.ok && !Contains(OrElse(reply.response.contentType, ""), "application/json") ==>
      r == Success(TranscribeResult(reply.response.body, JString(reply.response.body)))
    ensures r.Success? && Contains(OrElse(reply.response.contentType, ""), "application/json") ==>
      r.value.raw == reply.response.json.data &&
      r.value.text == ResponseText(reply.response.json.data, reply.response.json.serialized)
    ensures (reply.Answered? && reply.response.ok && reply.response.json.Unparsable? &&
             Contains(OrElse(reply.response.contentType, ""), "application/json")) ==>
      r == Failure(reply.response.json.error)
  {
    match reply
    case Rejected(err) => Failure(FetchWithTimeoutError(err))
    case Answered(res) =>
      if !res.ok then Failure(PlainError(FailureMessage(res.status, res.statusText, res.body)))
      else if Contains(OrElse(res.contentType, ""), "application/json") then
        match res.json
        case Unparsable(err) => Failure(err)
        case Parsed(data, serialized) => Success(TranscribeResult(ResponseText(data, serialized), data))
      else Success(TranscribeResult(res.body, JString(res.body)))
  }

  // ---------------------------------------------------------------------------
  // The client

  /** The module-level file sequence counter and the sequence numbers it has handed out. */
  class Client {
    var fileSeq: nat
    ghost var issued: seq<nat>

    /** Sequence numbers 1, 2, 3, … in order, the last one being the counter. */
    ghost predicate Valid()
      reads this
    {
      |issued| == fileSeq && forall i :: 0 <= i < |issued| ==> issued[i] == i + 1
    }

    constructor()
      ensures Valid() && fileSeq == 0
    {
      fileSeq := 0;
      issued := [];
    }

    /**
     * The closure that wraps a plain blob in a `File`: the type defaults to
     * WebM, the sequence number is incremented first, and the name carries
     * the new number and the extension inferred from the type.
     */
    method NameBlob(b: Blob, now: nat) returns (name: string, file: Blob)
      requires Valid()
      modifies this`fileSeq, this`issued
      ensures Valid()
      ensures fileSeq == old(fileSeq) + 1 && issued == old(issued) + [fileSeq]
      ensures name == FileName(now, fileSeq, InferExtension(BlobTypeOf(b.mimeType)))
      ensures file == Blob(b.data, BlobTypeOf(b.mimeType))
    {
      var t := BlobTypeOf(b.mimeType);
      fileSeq := fileSeq + 1;
      issued := issued + [fileSeq];
      name, file := FileName(now, fileSeq, InferExtension(t)), Blob(b.data, t);
    }

    /**
     * `transcribeAudio(input, options)`: the request it sends (`None` when it
     * throws before sending) and what it resolves or throws. `now` stands for
     * `Date.now()` and `reply` for the network's answer.
     */
    method TranscribeAudio(input: Upload, options: TranscribeOptions, env: Env, now: nat, reply: ServerReply)
      returns (request: Option<Request>, r: Result<TranscribeResult, JsError>)
      requires Valid()
      modifies this`fileSeq, this`issued
      ensures Valid()
      ensures request.Some? ==>
        && request.value.url == ApiUrlOf(options, env)
        && request.value.authorization == AuthorizationOf(options, env)
        && request.value.timeoutMs == TimeoutOf(options, env)
        && |request.value.form| == 2 + |options.fields|
        && request.value.form[0].FileEntry?
        && request.value.form[1] == TextEntry("filename", request.value.form[0].fileName)
        && forall i :: 0 <= i < |options.fields| ==>
             request.value.form[2 + i] == TextEntry(options.fields[i].0, FieldString(options.fields[i].1))
      ensures ApiUrlOf(options, env) == "" ==>
        request == None && r == Failure(PlainError(MissingUrlMessage)) && fileSeq == old(fileSeq)
      ensures ApiUrlOf(options, env) != "" ==> r == Outcome(reply) && request.Some?
      ensures ApiUrlOf(options, env) != "" && input.UploadBlob? ==>
        fileSeq == old(fileSeq) + 1 && issued == old(issued) + [fileSeq] &&
        request.value.form[0] == FileEntry(FieldNameOf(env),
          FileName(now, fileSeq, InferExtension(BlobTypeOf(input.blob.mimeType))),
          BlobTypeOf(input.blob.mimeType), input.blob.data)
      ensures ApiUrlOf(options, env) != "" && input.UploadFile? ==>
        fileSeq == old(fileSeq) && request.value.form[0] == FileEntry(FieldNameOf(env), input.name, input.file.mimeType, input.file.data)
    {
      var url := ApiUrlOf(options, env);
      if url == "" {
        request := None;
        r := Failure(PlainError(MissingUrlMessage));
        return;
      }
      var name: string;
      var file: Blob;
      match input {
        case UploadFile(n, f) =>
          name, file := n, f;
        case UploadBlob(b) =>
          name, file := NameBlob(b, now);
      }
      var form := BuildForm(FieldNameOf(env), name, file, options.fields);
      request := Some(Request(url, form, AuthorizationOf(options, env), TimeoutOf(options, env)));
      r := Outcome(reply);
    }
  }

  /** Two blobs uploaded under different sequence numbers never share a file name. */
  lemma GeneratedNamesDistinct(now1: nat, q1: nat, e1: string, now2: nat, q2: nat, e2: string)
    requires q1 != q2
    ensures FileName(now1, q1, e1) != FileName(now2, q2, e2)
  {
    if FileName(now1, q1, e1) == FileName(now2, q2, e2) {
      FileNameInjective(now1, q1, e1, now2, q2, e2);
    }
  }
}
