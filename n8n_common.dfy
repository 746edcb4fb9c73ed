/**
 * Shared configuration of the workflow-engine clients: environment lookup
 * with the `VITE_` prefix, the runtime configuration derived from it, and the
 * classification of errors raised by a request.
 */
module N8nCommon {
  import opened Wrappers
  import opened Strings

  /** The build-time environment (`import.meta.env`). */
  type Env = map<string, string>

  /** `env["VITE_" + name] ?? env[name]`. */
  function ReadEnv(env: Env, name: string): (r: Option<string>)
    ensures "VITE_" + name in env ==> r == Some(env["VITE_" + name])
    ensures "VITE_" + name !in env && name in env ==> r == Some(env[name])
    ensures "VITE_" + name !in env && name !in env ==> r == None
  {
    if "VITE_" + name in env then Some(env["VITE_" + name])
    else if name in env then Some(env[name])
    else None
  }

  /** A value JavaScript's `||` keeps: defined and not the empty string. */
  predicate Truthy(v: Option<string>) {
    v.Some? && v.value != ""
  }

  /** `a || b` on optional strings. */
  function Or(a: Option<string>, b: Option<string>): (r: Option<string>)
    ensures Truthy(a) ==> r == a
    ensures !Truthy(a) ==> r == b
  {
    if Truthy(a) then a else b
  }

  /** `a || fallback` with a string fallback. */
  function OrElse(a: Option<string>, fallback: string): (r: string)
    ensures Truthy(a) ==> r == a.value
    ensures !Truthy(a) ==> r == fallback
  {
    if Truthy(a) then a.value else fallback
  }

  /** `timeoutMs` is `Number(...)`: `None` stands for NaN. */
  datatype RuntimeConfig = RuntimeConfig(
    apiUrl: string,
    hasApiKey: bool,
    timeoutMs: Option<nat>,
    fieldName: string,
    useProxy: bool)

  const ProxyPath := "/api/n8n"
  const DefaultTimeoutMs: nat := 60000
  const DefaultFieldName := "audio"

  /** `getRuntimeConfig(primaryVar)`; a second argument is accepted by callers and ignored. */
  function GetRuntimeConfig(env: Env, primaryVar: string): (cfg: RuntimeConfig)
    ensures cfg.useProxy <==> Lower(OrElse(ReadEnv(env, "USE_PROXY"), "")) == "true"
    ensures cfg.useProxy ==> cfg.apiUrl == ProxyPath
    ensures !cfg.useProxy ==>
      cfg.apiUrl == OrElse(Or(ReadEnv(env, primaryVar), ReadEnv(env, "N8N_API_URL")), "")
    ensures cfg.hasApiKey <==> Truthy(ReadEnv(env, "N8N_API_KEY"))
    ensures cfg.fieldName == OrElse(ReadEnv(env, "UPLOAD_FIELD_NAME"), DefaultFieldName)
    ensures !Truthy(ReadEnv(env, "REQUEST_TIMEOUT_MS")) ==> cfg.timeoutMs == Some(DefaultTimeoutMs)
    ensures Truthy(ReadEnv(env, "REQUEST_TIMEOUT_MS")) ==>
      cfg.timeoutMs == ParseNumber(ReadEnv(env, "REQUEST_TIMEOUT_MS").value)
  {
    var useProxy := Lower(OrElse(ReadEnv(env, "USE_PROXY"), "")) == "true";
    var directUrl := Or(ReadEnv(env, primaryVar), ReadEnv(env, "N8N_API_URL"));
    var apiUrl := if useProxy then ProxyPath else OrElse(directUrl, "");
    var timeout := ReadEnv(env, "REQUEST_TIMEOUT_MS");
    var timeoutMs := if Truthy(timeout) then ParseNumber(timeout.value) else Some(DefaultTimeoutMs);
    RuntimeConfig(apiUrl, Truthy(ReadEnv(env, "N8N_API_KEY")), timeoutMs,
                  OrElse(ReadEnv(env, "UPLOAD_FIELD_NAME"), DefaultFieldName), useProxy)
  }

  /** The prefixed variable wins even when it is empty; the bare name is only a fallback. */
  lemma ReadEnvPrefersPrefixed(env: Env, name: string, v: string, w: string)
    requires env == map["VITE_" + name := "", name := w]
    requires "VITE_" + name != name
    ensures ReadEnv(env, name) == Some("")
    ensures ReadEnv(map[name := v], name) == Some(v)
  {
    assert "VITE_" + name !in map[name := v];
  }

  /** Behind the proxy the URL does not depend on which variable the caller names. */
  lemma ProxyIgnoresPrimaryVar(env: Env, p1: string, p2: string)
    requires Truthy(ReadEnv(env, "USE_PROXY")) && Lower(ReadEnv(env, "USE_PROXY").value) == "true"
    ensures GetRuntimeConfig(env, p1).apiUrl == GetRuntimeConfig(env, p2).apiUrl == ProxyPath
  {
  }

  /** `USE_PROXY` is read case-insensitively. */
  lemma ProxyFlagCaseInsensitive(env: Env)
    requires ReadEnv(env, "USE_PROXY") == Some("TRUE")
    ensures GetRuntimeConfig(env, "N8N_TRANSCRIBE_URL").useProxy
  {
    assert Lower("TRUE") == "true";
  }

  /** An empty environment: no URL, no key, the default timeout and field name. */
  lemma EmptyEnvironmentDefaults(primaryVar: string)
    ensures var cfg := GetRuntimeConfig(map[], primaryVar);
      cfg == RuntimeConfig("", false, Some(DefaultTimeoutMs), DefaultFieldName, false)
  {
    assert Lower("") == "";
  }

  // ---------------------------------------------------------------------------
  // Errors

  /** The JavaScript class an error object was created from. */
  datatype ErrorClass = DomExceptionClass | TypeErrorClass | OtherErrorClass

  datatype JsError = JsError(cls: ErrorClass, name: string, message: string)

  const TimeoutMessage := "The request timed out"
  const NetworkMessage := "Network/CORS Error: Check the browser console and Network tab"

  /** `new Error(message)`. */
  function PlainError(message: string): JsError {
    JsError(OtherErrorClass, "Error", message)
  }

  predicate IsAbort(err: JsError) {
    err.cls == DomExceptionClass && err.name == "AbortError"
  }

  /** The error `fetchWithTimeout` throws when `fetch` rejects with `err`. */
  function FetchWithTimeoutError(err: JsError): (e: JsError)
    ensures IsAbort(err) ==> e == PlainError(TimeoutMessage)
    ensures !IsAbort(err) && err.cls == TypeErrorClass ==> e == PlainError(NetworkMessage)
    ensures !IsAbort(err) && err.cls != TypeErrorClass ==> e == err
  {
    if IsAbort(err) then PlainError(TimeoutMessage)
    else if err.cls == TypeErrorClass then PlainError(NetworkMessage)
    else err
  }

  datatype ErrorKind = Timeout | Network | Other

  /** The kind `diagnoseConnection` reports: by name first, then by class. */
  function DiagnoseKind(err: JsError): (k: ErrorKind)
    ensures k == Timeout <==> err.name == "AbortError"
    ensures k == Network <==> err.name != "AbortError" && err.cls == TypeErrorClass
  {
    if err.name == "AbortError" then Timeout
    else if err.cls == TypeErrorClass then Network
    else Other
  }

  /**
   * The two classifications agree on the errors `fetch` produces, and the
   * diagnosis alone also calls an aborted request of another class a timeout.
   */
  lemma ClassificationsAgree(err: JsError)
    ensures IsAbort(err) ==> DiagnoseKind(err) == Timeout && FetchWithTimeoutError(err).message == TimeoutMessage
    ensures err.cls == TypeErrorClass && err.name != "AbortError" ==>
      DiagnoseKind(err) == Network && FetchWithTimeoutError(err).message == NetworkMessage
    ensures err.cls == OtherErrorClass && err.name != "AbortError" ==>
      DiagnoseKind(err) == Other && FetchWithTimeoutError(err) == err
    ensures err.cls == OtherErrorClass && err.name == "AbortError" ==>
      DiagnoseKind(err) == Timeout && FetchWithTimeoutError(err) == err
  {
  }

  // ---------------------------------------------------------------------------
  // Connection diagnosis

  /** What the single diagnostic `fetch` does: answer, or reject with an error. */
  datatype FetchOutcome =
    | Responded(ok: bool, status: int, statusText: string, allowOrigin: Option<string>, contentType: Option<string>)
    | Threw(err: JsError)

  datatype DiagnoseResult =
    | DiagnoseOk(status: int, statusText: string, allowOrigin: Option<string>, contentType: Option<string>, cfg: RuntimeConfig)
    | DiagnoseFailed(error: string, kind: Option<ErrorKind>, cfg: RuntimeConfig)

  const NoUrlMessage := "API URL is not set"

  /** `diagnoseConnection(primaryVar)`; `network` is what the request would produce. */
  function DiagnoseConnection(env: Env, primaryVar: string, network: FetchOutcome): (r: DiagnoseResult)
    ensures r.cfg == GetRuntimeConfig(env, primaryVar)
    ensures r.cfg.apiUrl == "" ==> r == DiagnoseFailed(NoUrlMessage, None, r.cfg)
    ensures r.DiagnoseOk? <==> r.cfg.apiUrl != "" && network.Responded? && network.ok
    ensures r.cfg.apiUrl != "" && network.Responded? && !network.ok ==>
      r == DiagnoseFailed("HTTP " + IntToString(network.status) + " " + network.statusText, None, r.cfg)
    ensures r.cfg.apiUrl != "" && network.Threw? ==>
      r == DiagnoseFailed(network.err.message, Some(DiagnoseKind(network.err)), r.cfg)
  {
    var cfg := GetRuntimeConfig(env, primaryVar);
    if cfg.apiUrl == "" then DiagnoseFailed(NoUrlMessage, None, cfg)
    else match network
      case Responded(ok, status, statusText, allowOrigin, contentType) =>
        if !ok then DiagnoseFailed("HTTP " + IntToString(status) + " " + statusText, None, cfg)
        else DiagnoseOk(status, statusText, allowOrigin, contentType, cfg)
      case Threw(err) => DiagnoseFailed(err.message, Some(DiagnoseKind(err)), cfg)
  }

  /** Without a URL no request is made: the outcome of the network cannot matter. */
  lemma NoUrlMakesNoRequest(env: Env, primaryVar: string, n1: FetchOutcome, n2: FetchOutcome)
    requires GetRuntimeConfig(env, primaryVar).apiUrl == ""
    ensures DiagnoseConnection(env, primaryVar, n1) == DiagnoseConnection(env, primaryVar, n2)
  {
  }
}
