/** The transport layer of the client: one `fetch` per request, with the URL,
    headers and body built from the configuration, and every outcome sorted
    into a parsed value or a thrown error. */
module Transport {
  import opened Base
  import opened Js
  import Text

  /** Used when the caller gives no `timeoutMs`. */
  const DefaultTimeoutMs := 30000

  datatype Method = GET | POST

  /** `FirecrawlClientConfig`. */
  datatype ClientConfig = ClientConfig(baseUrl: string, apiKey: Option<string>)

  /** `RequestOptions`; the caller's abort signal is not part of the model
      (an abort shows up as the outcome the network reports). */
  datatype RequestOptions = RequestOptions(timeoutMs: Option<int>)

  /** The `init` record given to `fetch`; `timeoutMs` is the deadline of the
      timer composed into the signal, `None` when no timer is armed. */
  datatype RequestInit = RequestInit(verb: Method, headers: map<string, string>, body: Option<Json>, timeoutMs: Option<int>)

  /** One invocation of `fetch(url, init)`. */
  datatype FetchCall = FetchCall(url: string, init: RequestInit)

  /** Reading a response body: the text is empty, not JSON, or the JSON it parses to; or
      `response.text()` rejects (the timer or the caller's abort fires after the headers
      arrived), with the error it rejects with. */
  datatype BodyText = EmptyText | Malformed | JsonText(value: Json) | ReadFailed(thrown: JsError)

  /** How a `fetch` settles: a response with its status and body, or a rejection
      (a network failure, the timer's `TimeoutError`, the caller's `AbortError`). */
  datatype FetchOutcome = Responded(status: int, text: BodyText) | Rejected(thrown: JsError)

  /** `FirecrawlError(message, status, body)`. */
  datatype FirecrawlError = FirecrawlError(message: string, status: int, body: Option<Json>)

  /** What a client call can throw: a `FirecrawlError`, or another error rethrown untouched. */
  datatype Failure = Firecrawl(err: FirecrawlError) | Raised(thrown: JsError)

  /** A `FirecrawlError` with status 404. */
  predicate Is404(e: Failure) {
    e.Firecrawl? && e.err.status == 404
  }

  /** The configuration a client keeps: one trailing slash removed from the base URL,
      the key trimmed and dropped when blank. */
  function SafeConfig(baseUrl: string, apiKey: Option<string>): (c: ClientConfig)
    ensures c.baseUrl == Text.StripTrailingSlash(baseUrl)
    ensures c.apiKey.Some? <==> apiKey.Some? && Text.Trim(apiKey.value) != ""
    ensures c.apiKey.Some? ==> c.apiKey.value == Text.Trim(apiKey.value)
  {
    var key := if apiKey.Some? then Text.Trim(apiKey.value) else "";
    ClientConfig(Text.StripTrailingSlash(baseUrl), if key != "" then Some(key) else None)
  }

  /** `ensureUrl`: the base without one trailing slash, then the path verbatim. */
  function EnsureUrl(rawBase: string, path: string): string
  {
    Text.StripTrailingSlash(rawBase) + path
  }

  /** The URL ends with the path verbatim; what precedes it is the base, less the one trailing
      slash the base may end with. */
  lemma EnsureUrlParts(rawBase: string, path: string)
    ensures var url := EnsureUrl(rawBase, path);
      && |path| <= |url| && url[|url| - |path|..] == path
      && (rawBase == [] || rawBase[|rawBase| - 1] != '/' ==> rawBase == url[..|url| - |path|])
      && (rawBase != [] && rawBase[|rawBase| - 1] == '/' ==> rawBase == url[..|url| - |path|] + "/")
  {
    var url := EnsureUrl(rawBase, path);
    assert url[..|url| - |path|] == Text.StripTrailingSlash(rawBase);
  }

  /** `buildHeaders`: a JSON content type on POST, a bearer token when a key is set. */
  function BuildHeaders(m: Method, apiKey: Option<string>): (h: map<string, string>)
    ensures "Content-Type" in h <==> m == POST
    ensures "Content-Type" in h ==> h["Content-Type"] == "application/json"
    ensures "Authorization" in h <==> apiKey.Some? && apiKey.value != ""
    ensures "Authorization" in h ==> h["Authorization"] == "Bearer " + apiKey.value
    ensures h.Keys <= {"Content-Type", "Authorization"}
  {
    var withType := if m == POST then map["Content-Type" := "application/json"] else map[];
    if apiKey.Some? && apiKey.value != "" then withType["Authorization" := "Bearer " + apiKey.value] else withType
  }

  /** The deadline of the timer a request arms: the default when none is given,
      no timer at all for 0. */
  function TimerOf(options: RequestOptions): (t: Option<int>)
    ensures options.timeoutMs.None? ==> t == Some(DefaultTimeoutMs)
    ensures options.timeoutMs == Some(0) ==> t.None?
    ensures options.timeoutMs.Some? && options.timeoutMs.value != 0 ==> t == options.timeoutMs
  {
    var ms := options.timeoutMs.GetOr(DefaultTimeoutMs);
    if ms == 0 then None else Some(ms)
  }

  /** The `fetch` call `request(config, path, method, body, options)` makes. */
  function BuildCall(config: ClientConfig, path: string, m: Method, body: Option<Json>, options: RequestOptions): (call: FetchCall)
    ensures call.url == EnsureUrl(config.baseUrl, path)
    ensures call.init.verb == m
    ensures call.init.headers == BuildHeaders(m, config.apiKey)
    ensures call.init.body.Some? <==> m == POST && body.Some?
    ensures call.init.body.Some? ==> call.init.body == body
    ensures call.init.timeoutMs == TimerOf(options)
  {
    FetchCall(
      EnsureUrl(config.baseUrl, path),
      RequestInit(m, BuildHeaders(m, config.apiKey), if m == POST then body else None, TimerOf(options)))
  }

  /** `parseJson` once the text was read: nothing for an empty or unparseable body, else
      the parsed value. */
  function ParseJson(text: BodyText): (data: Option<Json>)
    ensures data.Some? <==> text.JsonText?
    ensures data.Some? ==> data.value == text.value
  {
    if text.JsonText? then Some(text.value) else None
  }

  /** The message of the error for a non-2xx response: the body's `message`,
      else a generic text naming the status. */
  function ErrorMessage(data: Option<Json>, status: int): (message: string)
    ensures data.Some? && !IsNullish(Get(data.value, "message")) ==> message == ToText(Get(data.value, "message").value)
    ensures data.Some? && Get(data.value, "message").Some? && Get(data.value, "message").value.JString?
      ==> message == Get(data.value, "message").value.s
    ensures data.None? || IsNullish(Get(data.value, "message"))
      ==> message == "Firecrawl request failed with status " + Text.IntToString(status)
  {
    if data.Some? && !IsNullish(Get(data.value, "message")) then ToText(data.value.fields["message"])
    else "Firecrawl request failed with status " + Text.IntToString(status)
  }

  /** `response.ok`. */
  predicate IsOkStatus(status: int) {
    200 <= status <= 299
  }

  /** How `request` turns the settled `fetch` into a value or a thrown error. A failure while
      reading the body happens outside the `try` around `fetch`, so its error escapes as it is. */
  function Classify(outcome: FetchOutcome): (r: Result<Json, Failure>)
    ensures r.Ok? <==> outcome.Responded? && IsOkStatus(outcome.status) && !outcome.text.ReadFailed?
    ensures r.Ok? ==> !r.value.JNull?
    ensures r.Err? && r.error.Raised? <==>
      (outcome.Rejected? && outcome.thrown.name == "AbortError") || (outcome.Responded? && outcome.text.ReadFailed?)
    ensures r.Err? && r.error.Raised? ==>
      r.error.thrown == if outcome.Rejected? then outcome.thrown else outcome.text.thrown
    ensures r.Err? && r.error.Firecrawl? && outcome.Responded? ==> r.error.err.status == outcome.status
  {
    match outcome
    case Rejected(t) =>
      if t.isDomException && t.name == "TimeoutError" then Err(Firecrawl(FirecrawlError("Request timed out", 408, None)))
      else if t.name == "AbortError" then Err(Raised(t))
      else Err(Firecrawl(FirecrawlError(t.message, 0, None)))
    case Responded(status, text) =>
      var data := ParseJson(text);
      if text.ReadFailed? then Err(Raised(text.thrown))
      else if !IsOkStatus(status) then Err(Firecrawl(FirecrawlError(ErrorMessage(data, status), status, data)))
      else if IsNullish(data) then Ok(JObject(map[]))
      else Ok(data.value)
  }

  /** The injected `fetch`: it answers each call with `respond` and keeps the list of calls made. */
  class Network {
    const respond: FetchCall -> FetchOutcome
    var calls: seq<FetchCall>

    constructor (respond: FetchCall -> FetchOutcome)
      ensures this.respond == respond && calls == []
    {
      this.respond := respond;
      calls := [];
    }

    method Fetch(call: FetchCall) returns (outcome: FetchOutcome)
      modifies this
      ensures calls == old(calls) + [call]
      ensures outcome == respond(call)
    {
      calls := calls + [call];
      outcome := respond(call);
    }
  }

  /** `request`: exactly one `fetch`, with the call `BuildCall` describes, classified by `Classify`. */
  method Request(net: Network, config: ClientConfig, path: string, m: Method, body: Option<Json>, options: RequestOptions)
    returns (r: Result<Json, Failure>)
    modifies net
    ensures net.calls == old(net.calls) + [BuildCall(config, path, m, body, options)]
    ensures r == Classify(net.respond(BuildCall(config, path, m, body, options)))
  {
    var url := EnsureUrl(config.baseUrl, path);
    var headers := BuildHeaders(m, config.apiKey);
    var timer := TimerOf(options);
    var init := RequestInit(m, headers, None, timer);
    if m == POST && body.Some? {
      init := init.(body := body);
    }
    var outcome := net.Fetch(FetchCall(url, init));
    r := Classify(outcome);
  }

  // ---------------------------------------------------------------------------
  // Properties of the request a call issues

  /** A base URL with at most two trailing slashes is joined to the path with no slash
      of its own: `https://example.dev/` and `/v2/health` give `https://example.dev/v2/health`. */
  lemma {:induction false} UrlKeepsPathVerbatim(host: string, raw: string, apiKey: Option<string>, path: string, m: Method, body: Option<Json>, options: RequestOptions)
    requires host == [] || host[|host| - 1] != '/'
    requires raw == host || raw == host + "/" || raw == host + "//"
    ensures BuildCall(SafeConfig(raw, apiKey), path, m, body, options).url == host + path
  {
    var base := SafeConfig(raw, apiKey).baseUrl;
    if raw == host + "//" {
      assert base == host + "/";
    } else if raw == host + "/" {
      assert base == host;
    }
    assert Text.StripTrailingSlash(base) == host;
    assert BuildCall(SafeConfig(raw, apiKey), path, m, body, options).url == EnsureUrl(base, path);
  }

  lemma ExampleDevHealthUrl()
    ensures BuildCall(SafeConfig("https://example.dev/", None), "/v2/health", GET, None, RequestOptions(None)).url
      == "https://example.dev/v2/health"
  {
    var host := "https://example.dev";
    assert host[|host| - 1] == 'v';
    assert "https://example.dev/" == host + "/";
    UrlKeepsPathVerbatim(host, host + "/", None, "/v2/health", GET, None, RequestOptions(None));
  }

  /** Header policy of a client's requests: `Content-Type: application/json` exactly on POST;
      `Authorization: Bearer <key>` exactly when the trimmed key is non-blank, with the trimmed key. */
  lemma HeaderPolicy(baseUrl: string, apiKey: Option<string>, path: string, m: Method, body: Option<Json>, options: RequestOptions)
    ensures var h := BuildCall(SafeConfig(baseUrl, apiKey), path, m, body, options).init.headers;
      && ("Content-Type" in h <==> m == POST)
      && (m == POST ==> h["Content-Type"] == "application/json")
      && ("Authorization" in h <==> apiKey.Some? && Text.Trim(apiKey.value) != "")
      && ("Authorization" in h ==> h["Authorization"] == "Bearer " + Text.Trim(apiKey.value))
  {
  }

  /** A GET never carries a body; a POST carries exactly the payload it was given. */
  lemma BodyPolicy(config: ClientConfig, path: string, m: Method, body: Option<Json>, options: RequestOptions)
    ensures m == GET ==> BuildCall(config, path, m, body, options).init.body.None?
    ensures m == POST ==> BuildCall(config, path, m, body, options).init.body == body
  {
  }

  // ---------------------------------------------------------------------------
  // Properties of the classification of outcomes

  /** A response whose body could be read succeeds exactly when its status is 2xx; it then
      yields the parsed body, or `{}` when the body is empty, unparseable or `null`. */
  lemma ClassifyResponse(status: int, text: BodyText)
    ensures Classify(Responded(status, text)).Ok? <==> 200 <= status <= 299 && !text.ReadFailed?
    ensures 200 <= status <= 299 && !text.ReadFailed? ==>
      Classify(Responded(status, text)).value
        == if text.JsonText? && !text.value.JNull? then text.value else JObject(map[])
  {
  }

  /** A non-2xx response whose body could be read throws a `FirecrawlError` carrying the HTTP
      status and the parsed body. Its message is the body's `message` turned into text when
      that is neither missing nor `null` (the string itself when it is a string), and a generic
      text naming the status otherwise (no body, a body that is not an object, or a `message`
      that is missing or `null`). */
  lemma ClassifyHttpError(status: int, text: BodyText)
    requires !(200 <= status <= 299) && !text.ReadFailed?
    ensures var r := Classify(Responded(status, text));
      && r.Err? && r.error.Firecrawl?
      && r.error.err.status == status
      && r.error.err.body == ParseJson(text)
      && (text.JsonText? && !IsNullish(Get(text.value, "message"))
          ==> r.error.err.message == ToText(Get(text.value, "message").value))
      && (text.JsonText? && Get(text.value, "message").Some? && Get(text.value, "message").value.JString?
          ==> r.error.err.message == Get(text.value, "message").value.s)
      && (!text.JsonText? || IsNullish(Get(text.value, "message"))
          ==> r.error.err.message == "Firecrawl request failed with status " + Text.IntToString(status))
  {
  }

  /** A failure while reading the body is rethrown as it is, whatever the status: it never
      becomes a `FirecrawlError`. */
  lemma ClassifyBodyReadFailure(status: int, thrown: JsError)
    ensures Classify(Responded(status, ReadFailed(thrown))) == Err(Raised(thrown))
  {
  }

  /** A 404 whose body is `{"message": "Not found"}` throws status 404, message "Not found". */
  lemma NotFoundMessage()
    ensures Classify(Responded(404, JsonText(JObject(map["message" := JString("Not found")]))))
      == Err(Firecrawl(FirecrawlError("Not found", 404, Some(JObject(map["message" := JString("Not found")])))))
  {
  }

  /** A rejected `fetch`: the timer's `TimeoutError` becomes status 408, an `AbortError`
      is rethrown untouched (never turned into a network or timeout error), anything else
      becomes status 0 with its message. */
  lemma ClassifyRejection(t: JsError)
    ensures var r := Classify(Rejected(t));
      && r.Err?
      && (r.error.Raised? <==> t.name == "AbortError")
      && (r.error.Raised? ==> r.error.thrown == t)
      && (t.isDomException && t.name == "TimeoutError" ==> r.error == Firecrawl(FirecrawlError("Request timed out", 408, None)))
      && (!(t.isDomException && t.name == "TimeoutError") && t.name != "AbortError"
          ==> r.error == Firecrawl(FirecrawlError(t.message, 0, None)))
  {
  }

  /** Status 0 is only ever a network failure: a `FirecrawlError` with status 0 never comes from a
      response whose status is not 0. */
  lemma StatusZeroMeansNoResponse(outcome: FetchOutcome)
    requires Classify(outcome).Err? && Classify(outcome).error.Firecrawl?
    requires Classify(outcome).error.err.status == 0
    ensures outcome.Rejected? || outcome.status == 0
  {
  }
}
