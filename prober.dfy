/** The capability prober: what `health`, `activity` and `usage` request, in which
    order, and what they return, as functions of the server's answers. Each
    `...Run` function gives the result together with the list of `fetch` calls the
    operation makes; the client's methods are proved to behave as these say. */
module Prober {
  import opened Base
  import opened Js
  import opened Transport
  import opened Domain
  import Text

  const HealthPath := "/v2/health"
  const ActivityPath := "/v2/activity"
  const CrawlActivePath := "/v1/crawl/active"
  const QueueStatusPath := "/v1/team/queue-status"
  const UsagePath := "/v2/usage"
  const IsProductionPath := "/is-production"
  const TestPath := "/test"
  const RootPath := "/"
  const CreditUsagePath := "/v1/team/credit-usage"
  const TokenUsagePath := "/v1/team/token-usage"

  /** The result of an operation and the `fetch` calls it made, in order. */
  datatype Run<T> = Run(result: Result<T, Failure>, trace: seq<FetchCall>)

  /** The GET request for `path`. */
  function GetCall(config: ClientConfig, path: string, options: RequestOptions): FetchCall {
    BuildCall(config, path, GET, None, options)
  }

  /** What `request` yields for a GET of `path` against the server `respond`. */
  function Answer(config: ClientConfig, respond: FetchCall -> FetchOutcome, path: string, options: RequestOptions): Result<Json, Failure> {
    Classify(respond(GetCall(config, path, options)))
  }

  // ---------------------------------------------------------------------------
  // health

  /** The `info` object of a health response, `{}` when it is missing or `null`. */
  function ExistingInfo(response: Json): JsonObject {
    var info := Get(response, "info");
    if IsNullish(info) then map[] else Fields(info.value)
  }

  /** `attachProbeMetadata`: the response with its `info` extended by `extraInfo`,
      then `checkedEndpoint` and `fallback`. */
  function AttachProbeMetadata(response: Json, path: string, fallback: bool, extraInfo: JsonObject): (r: Json)
    ensures r.JObject? && r.fields.Keys == Fields(response).Keys + {"info"}
    ensures forall k :: k in Fields(response) && k != "info" ==> r.fields[k] == Fields(response)[k]
    ensures r.fields["info"].JObject?
    ensures var info := r.fields["info"].fields;
      && info.Keys == ExistingInfo(response).Keys + extraInfo.Keys + {"checkedEndpoint", "fallback"}
      && info["checkedEndpoint"] == JString(path)
      && info["fallback"] == JBool(fallback)
      && (forall k :: k in extraInfo && k != "checkedEndpoint" && k != "fallback" ==> info[k] == extraInfo[k])
      && (forall k :: k in ExistingInfo(response) && k !in extraInfo && k != "checkedEndpoint" && k != "fallback"
            ==> info[k] == ExistingInfo(response)[k])
  {
    var info := (ExistingInfo(response) + extraInfo)["checkedEndpoint" := JString(path)]["fallback" := JBool(fallback)];
    JObject(Fields(response)["info" := JObject(info)])
  }

  /** `buildOkResponse`: `{status: "ok"}` tagged with the endpoint, a note and any extra info;
      the fallback flag is set for every endpoint but `/v2/health`. */
  function BuildOkResponse(path: string, note: string, extraInfo: JsonObject): (r: Json)
    ensures r.JObject? && r.fields.Keys == {"status", "info"} && r.fields["status"] == JString("ok")
    ensures r.fields["info"].JObject?
    ensures var info := r.fields["info"].fields;
      && info.Keys == extraInfo.Keys + {"note", "checkedEndpoint", "fallback"}
      && info["checkedEndpoint"] == JString(path)
      && info["fallback"] == JBool(path != HealthPath)
      && info["note"] == (if "note" in extraInfo then extraInfo["note"] else JString(note))
      && (forall k :: k in extraInfo && k != "checkedEndpoint" && k != "fallback" ==> info[k] == extraInfo[k])
  {
    AttachProbeMetadata(JObject(map["status" := JString("ok")]), path, path != HealthPath,
      map["note" := JString(note)] + extraInfo)
  }

  /** The legacy probes `health` tries, one per endpoint. */
  datatype Probe = IsProductionProbe | TestProbe | RootProbe {
    function Path(): string {
      match this
      case IsProductionProbe => IsProductionPath
      case TestProbe => TestPath
      case RootProbe => RootPath
    }

    function Note(): string {
      match this
      case IsProductionProbe => "GET /is-production responded; inferring health from self-host endpoint."
      case TestProbe => "GET /test succeeded; server lacks /v2/health but is reachable."
      case RootProbe => "Root endpoint responded; consider enabling /v2/health for detailed status."
    }
  }

  /** The probes, in the order they are tried. */
  const HealthProbes: seq<Probe> := [IsProductionProbe, TestProbe, RootProbe]

  /** The `isProduction` flag the server sent, when it sent a boolean. */
  function ProductionFlag(data: Json): Option<bool> {
    var v := Get(data, "isProduction");
    if v.Some? && v.value.JBool? then Some(v.value.b) else None
  }

  /** The extra `info` a successful probe adds: `isProduction`, for `/is-production` when the
      server sent a boolean flag. */
  function ProbeExtra(probe: Probe, data: Json): (extra: JsonObject)
    ensures "isProduction" in extra <==> probe == IsProductionProbe && ProductionFlag(data).Some?
    ensures "isProduction" in extra ==> extra["isProduction"] == JBool(ProductionFlag(data).value)
    ensures extra.Keys <= {"isProduction"}
  {
    var flag := ProductionFlag(data);
    if probe == IsProductionProbe && flag.Some? then map["isProduction" := JBool(flag.value)] else map[]
  }

  /** The health response a successful probe yields. */
  function ProbeResponse(probe: Probe, data: Json): (r: Json)
    ensures r.JObject? && r.fields.Keys == {"status", "info"} && r.fields["status"] == JString("ok")
    ensures r.fields["info"].JObject?
  {
    BuildOkResponse(probe.Path(), probe.Note(), ProbeExtra(probe, data))
  }

  /** A probe's response is tagged with the probe's path, `fallback: true` and the probe's note. */
  lemma ProbeResponseTags(probe: Probe, data: Json)
    ensures var info := ProbeResponse(probe, data).fields["info"].fields;
      && {"checkedEndpoint", "fallback", "note"} <= info.Keys
      && info["checkedEndpoint"] == JString(probe.Path())
      && info["fallback"] == JBool(true)
      && info["note"] == JString(probe.Note())
  {
    var path, note, extra := probe.Path(), probe.Note(), ProbeExtra(probe, data);
    assert ProbeResponse(probe, data) == BuildOkResponse(path, note, extra);
    ProbeIsNotHealth(probe);
    FallbackResponseTags(path, note, extra);
  }

  /** No probe is `/v2/health` itself, so every probe response is marked as a fallback. */
  lemma ProbeIsNotHealth(probe: Probe)
    ensures probe.Path() != HealthPath
  {
  }

  lemma FallbackResponseTags(path: string, note: string, extra: JsonObject)
    requires path != HealthPath && extra.Keys <= {"isProduction"}
    ensures var info := BuildOkResponse(path, note, extra).fields["info"].fields;
      && {"checkedEndpoint", "fallback", "note"} <= info.Keys
      && info["checkedEndpoint"] == JString(path)
      && info["fallback"] == JBool(true)
      && info["note"] == JString(note)
  {
    assert "note" !in extra;
  }

  /** `isProduction` is reported exactly when `/is-production` answered with a boolean flag, and
      then it is that flag; the `info` of a probe response holds nothing else. */
  lemma ProbeResponseProduction(probe: Probe, data: Json)
    ensures var info := ProbeResponse(probe, data).fields["info"].fields;
      && ("isProduction" in info <==> probe == IsProductionProbe && ProductionFlag(data).Some?)
      && ("isProduction" in info ==> info["isProduction"] == JBool(ProductionFlag(data).value))
      && info.Keys <= {"checkedEndpoint", "fallback", "note", "isProduction"}
  {
    var path, note, extra := probe.Path(), probe.Note(), ProbeExtra(probe, data);
    assert ProbeResponse(probe, data) == BuildOkResponse(path, note, extra);
    ProbeIsNotHealth(probe);
    FallbackResponseExtra(path, note, extra);
  }

  lemma FallbackResponseExtra(path: string, note: string, extra: JsonObject)
    requires extra.Keys <= {"isProduction"}
    ensures var info := BuildOkResponse(path, note, extra).fields["info"].fields;
      && ("isProduction" in info <==> "isProduction" in extra)
      && ("isProduction" in info ==> info["isProduction"] == extra["isProduction"])
      && info.Keys <= {"checkedEndpoint", "fallback", "note", "isProduction"}
  {
  }

  /** Whether a failure of `/v2/health` sends `health` to the probes: any error that is not a
      `FirecrawlError`, or a `FirecrawlError` with status 404 or 405. */
  predicate ShouldFallback(e: Failure) {
    e.Raised? || e.err.status == 404 || e.err.status == 405
  }

  /** The probe that answered, with what it answered. */
  datatype ProbeHit = ProbeHit(probe: Probe, data: Json)

  /** The probe loop: the first probe that answers wins; every failure is swallowed and
      remembered, and the last one is thrown when no probe answers. */
  function ProbeChain(config: ClientConfig, respond: FetchCall -> FetchOutcome, options: RequestOptions,
                      probes: seq<Probe>, lastError: Failure): (r: Run<ProbeHit>)
    ensures |r.trace| <= |probes|
    ensures r.result.Ok? ==> 1 <= |r.trace| && r.result.value.probe == probes[|r.trace| - 1]
    ensures r.result.Err? ==> |r.trace| == |probes|
    ensures probes == [] ==> r == Run(Err(lastError), [])
    decreases |probes|
  {
    if probes == [] then Run(Err(lastError), [])
    else
      var call := GetCall(config, probes[0].Path(), options);
      match Classify(respond(call))
      case Ok(data) => Run(Ok(ProbeHit(probes[0], data)), [call])
      case Err(e) =>
        var rest := ProbeChain(config, respond, options, probes[1..], e);
        Run(rest.result, [call] + rest.trace)
  }

  /** `health`: `/v2/health` first; the probes only after an error that calls for them; the
      result tagged with the endpoint that answered and whether it was a fallback. */
  function HealthRun(config: ClientConfig, respond: FetchCall -> FetchOutcome, options: RequestOptions): (run: Run<Json>)
    ensures 1 <= |run.trace| <= 4 && run.trace[0] == GetCall(config, HealthPath, options)
    ensures var health := Answer(config, respond, HealthPath, options);
      |run.trace| > 1 <==> health.Err? && ShouldFallback(health.error)
    ensures var health := Answer(config, respond, HealthPath, options);
      |run.trace| == 1 ==>
        run.result == if health.Ok? then Ok(AttachProbeMetadata(health.value, HealthPath, false, map[])) else health
    ensures |run.trace| > 1 && run.result.Err? ==> |run.trace| == 4
    ensures run.result.Ok? ==> GetIn(run.result.value, "info", "fallback") == Some(JBool(|run.trace| > 1))
  {
    var call := GetCall(config, HealthPath, options);
    match Classify(respond(call))
    case Ok(response) =>
      var tagged := AttachProbeMetadata(response, HealthPath, false, map[]);
      assert GetIn(tagged, "info", "fallback") == Some(JBool(false));
      Run(Ok(tagged), [call])
    case Err(e) =>
      if !ShouldFallback(e) then Run(Err(e), [call])
      else
        var chain := ProbeChain(config, respond, options, HealthProbes, e);
        if chain.result.Ok? then
          var hit := chain.result.value;
          var response := ProbeResponse(hit.probe, hit.data);
          ProbeResponseTags(hit.probe, hit.data);
          assert GetIn(response, "info", "fallback") == Some(JBool(true));
          Run(Ok(response), [call] + chain.trace)
        else Run(Err(chain.result.error), [call] + chain.trace)
  }

  /** The GET requests for the probes, in order. */
  function ProbeCalls(config: ClientConfig, probes: seq<Probe>, options: RequestOptions): (calls: seq<FetchCall>)
    ensures |calls| == |probes|
    ensures forall i :: 0 <= i < |probes| ==> calls[i] == GetCall(config, probes[i].Path(), options)
  {
    seq(|probes|, i requires 0 <= i < |probes| => GetCall(config, probes[i].Path(), options))
  }

  /** The index of the first probe that answers, `|probes|` when none does. */
  function FirstAnswered(config: ClientConfig, respond: FetchCall -> FetchOutcome, options: RequestOptions, probes: seq<Probe>): (k: nat)
    ensures k <= |probes|
    ensures forall i :: 0 <= i < k ==> Answer(config, respond, probes[i].Path(), options).Err?
    ensures k < |probes| ==> Answer(config, respond, probes[k].Path(), options).Ok?
    decreases |probes|
  {
    if probes == [] || Answer(config, respond, probes[0].Path(), options).Ok? then 0
    else 1 + FirstAnswered(config, respond, options, probes[1..])
  }

  lemma ProbeCallsCons(config: ClientConfig, probes: seq<Probe>, options: RequestOptions)
    requires probes != []
    ensures ProbeCalls(config, probes, options)
      == [GetCall(config, probes[0].Path(), options)] + ProbeCalls(config, probes[1..], options)
  {
    assert ProbeCalls(config, probes, options)[1..] == ProbeCalls(config, probes[1..], options);
  }

  /** The probe loop from position `i` stops at probe `i` when that probe answers. */
  lemma ProbeChainStops(config: ClientConfig, respond: FetchCall -> FetchOutcome, options: RequestOptions,
                        probes: seq<Probe>, i: nat, lastError: Failure)
    requires i < |probes|
    requires Answer(config, respond, probes[i].Path(), options).Ok?
    ensures ProbeChain(config, respond, options, probes[i..], lastError)
      == Run(Ok(ProbeHit(probes[i], Answer(config, respond, probes[i].Path(), options).value)),
             [GetCall(config, probes[i].Path(), options)])
  {
    assert probes[i..][0] == probes[i];
  }

  /** When probe `i` fails, the probe loop from position `i` goes on from `i + 1` carrying
      that probe's error. */
  lemma ProbeChainAdvances(config: ClientConfig, respond: FetchCall -> FetchOutcome, options: RequestOptions,
                           probes: seq<Probe>, i: nat, lastError: Failure)
    requires i < |probes|
    requires Answer(config, respond, probes[i].Path(), options).Err?
    ensures var rest := ProbeChain(config, respond, options, probes[i + 1..], Answer(config, respond, probes[i].Path(), options).error);
      ProbeChain(config, respond, options, probes[i..], lastError)
        == Run(rest.result, [GetCall(config, probes[i].Path(), options)] + rest.trace)
  {
    assert probes[i..][0] == probes[i] && probes[i..][1..] == probes[i + 1..];
  }

  /** Past the last probe the loop makes no request and throws the error it carries. */
  lemma ProbeChainEnds(config: ClientConfig, respond: FetchCall -> FetchOutcome, options: RequestOptions,
                       probes: seq<Probe>, lastError: Failure)
    ensures ProbeChain(config, respond, options, probes[|probes|..], lastError) == Run(Err(lastError), [])
  {
    assert probes[|probes|..] == [];
  }

  /** The loop from position 0 is the whole loop. */
  lemma ProbeChainStarts(config: ClientConfig, respond: FetchCall -> FetchOutcome, options: RequestOptions,
                         probes: seq<Probe>, lastError: Failure)
    ensures ProbeChain(config, respond, options, probes[0..], lastError) == ProbeChain(config, respond, options, probes, lastError)
  {
    assert probes[0..] == probes;
  }

  /** The probe loop requests the probes strictly in order up to the first that answers and
      returns what that probe answered. */
  lemma {:induction false} ProbeChainHit(config: ClientConfig, respond: FetchCall -> FetchOutcome, options: RequestOptions,
                                         probes: seq<Probe>, lastError: Failure)
    requires FirstAnswered(config, respond, options, probes) < |probes|
    ensures var k := FirstAnswered(config, respond, options, probes);
      ProbeChain(config, respond, options, probes, lastError)
        == Run(Ok(ProbeHit(probes[k], Answer(config, respond, probes[k].Path(), options).value)),
               ProbeCalls(config, probes[..k + 1], options))
    decreases |probes|
  {
    hide Classify, BuildCall;
    var call := GetCall(config, probes[0].Path(), options);
    var first := Classify(respond(call));
    if first.Ok? {
      assert ProbeCalls(config, probes[..1], options) == [call];
    } else {
      var rest := probes[1..];
      ProbeChainHit(config, respond, options, rest, first.error);
      var k := FirstAnswered(config, respond, options, probes);
      assert k == 1 + FirstAnswered(config, respond, options, rest);
      assert probes[..k + 1][1..] == rest[..k];
      ProbeCallsCons(config, probes[..k + 1], options);
    }
  }

  /** When no probe answers, the probe loop has requested every probe, in order, and throws the
      last probe's error (or the error it started from when there are no probes). */
  lemma {:induction false} ProbeChainMiss(config: ClientConfig, respond: FetchCall -> FetchOutcome, options: RequestOptions,
                                          probes: seq<Probe>, lastError: Failure)
    requires FirstAnswered(config, respond, options, probes) == |probes|
    ensures ProbeChain(config, respond, options, probes, lastError)
      == Run(Err(if probes == [] then lastError else Answer(config, respond, probes[|probes| - 1].Path(), options).error),
             ProbeCalls(config, probes, options))
    decreases |probes|
  {
    if probes != [] {
      var call := GetCall(config, probes[0].Path(), options);
      var first := Classify(respond(call));
      var rest := probes[1..];
      assert FirstAnswered(config, respond, options, probes) == 1 + FirstAnswered(config, respond, options, rest);
      ProbeChainMiss(config, respond, options, rest, first.error);
      ProbeCallsCons(config, probes, options);
      if rest != [] {
        assert rest[|rest| - 1] == probes[|probes| - 1];
      }
    }
  }

  /** A `/v2/health` that answers is returned after exactly one request, its `info` keeping
      its keys and tagged `checkedEndpoint: "/v2/health"`, `fallback: false`. */
  lemma HealthDirect(config: ClientConfig, respond: FetchCall -> FetchOutcome, options: RequestOptions)
    requires Answer(config, respond, HealthPath, options).Ok?
    ensures var run := HealthRun(config, respond, options);
      var response := Answer(config, respond, HealthPath, options).value;
      && run.trace == [GetCall(config, HealthPath, options)]
      && run.result.Ok? && run.result.value.JObject?
      && run.result.value.fields["info"].JObject?
      && run.result.value.fields["info"].fields["checkedEndpoint"] == JString("/v2/health")
      && run.result.value.fields["info"].fields["fallback"] == JBool(false)
      && (forall k :: k in ExistingInfo(response) && k != "checkedEndpoint" && k != "fallback"
            ==> run.result.value.fields["info"].fields[k] == ExistingInfo(response)[k])
      && run.result.value.fields.Keys == Fields(response).Keys + {"info"}
      && (forall k :: k in Fields(response) && k != "info" ==> run.result.value.fields[k] == Fields(response)[k])
      && run.result.value.fields["info"].fields.Keys == ExistingInfo(response).Keys + {"checkedEndpoint", "fallback"}
  {
  }

  /** A `FirecrawlError` from `/v2/health` whose status is neither 404 nor 405 (a network failure
      with status 0, a timeout with 408, a 500, ...) is thrown as it is, after one request. */
  lemma HealthPropagates(config: ClientConfig, respond: FetchCall -> FetchOutcome, options: RequestOptions)
    requires var a := Answer(config, respond, HealthPath, options);
      a.Err? && a.error.Firecrawl? && a.error.err.status != 404 && a.error.err.status != 405
    ensures HealthRun(config, respond, options)
      == Run(Err(Answer(config, respond, HealthPath, options).error), [GetCall(config, HealthPath, options)])
  {
  }

  /** A failure while reading the body of `/v2/health` is not a `FirecrawlError`, so it sends
      `health` to the probes: `/is-production` is requested next. */
  lemma HealthReadFailureProbes(config: ClientConfig, respond: FetchCall -> FetchOutcome, options: RequestOptions,
                                status: int, thrown: JsError)
    requires respond(GetCall(config, HealthPath, options)) == Responded(status, ReadFailed(thrown))
    ensures var trace := HealthRun(config, respond, options).trace;
      |trace| >= 2 && trace[1] == GetCall(config, IsProductionPath, options)
  {
    ClassifyBodyReadFailure(status, thrown);
    HealthRunsProbes(config, respond, options);
    assert HealthProbes[0].Path() == IsProductionPath;
  }

  /** After a 404, a 405 or an error that is not a `FirecrawlError` from `/v2/health`, the probes
      `/is-production`, `/test`, `/` are requested in this order up to the first that answers,
      whose response (status "ok", tagged with its path and `fallback: true`) is the result; when
      none answers, all four requests have been made and the error of `/` is thrown. */
  lemma HealthFallback(config: ClientConfig, respond: FetchCall -> FetchOutcome, options: RequestOptions)
    requires Answer(config, respond, HealthPath, options).Err?
    requires ShouldFallback(Answer(config, respond, HealthPath, options).error)
    ensures var run := HealthRun(config, respond, options);
      var k := FirstAnswered(config, respond, options, HealthProbes);
      && (k < 3 ==>
            && run.trace == [GetCall(config, HealthPath, options)] + ProbeCalls(config, HealthProbes[..k + 1], options)
            && run.result == Ok(ProbeResponse(HealthProbes[k], Answer(config, respond, HealthProbes[k].Path(), options).value)))
      && (k == 3 ==>
            && run.trace == [GetCall(config, HealthPath, options)] + ProbeCalls(config, HealthProbes, options)
            && run.result == Err(Answer(config, respond, RootPath, options).error))
  {
    var e := Answer(config, respond, HealthPath, options).error;
    HealthRunsProbes(config, respond, options);
    var k := FirstAnswered(config, respond, options, HealthProbes);
    if k < 3 {
      ProbeChainHit(config, respond, options, HealthProbes, e);
    } else {
      ProbeChainMiss(config, respond, options, HealthProbes, e);
      assert HealthProbes[2].Path() == RootPath;
    }
  }

  /** After such a failure, `health` is the `/v2/health` request followed by the probe loop. */
  lemma HealthRunsProbes(config: ClientConfig, respond: FetchCall -> FetchOutcome, options: RequestOptions)
    requires Answer(config, respond, HealthPath, options).Err?
    requires ShouldFallback(Answer(config, respond, HealthPath, options).error)
    ensures var chain := ProbeChain(config, respond, options, HealthProbes, Answer(config, respond, HealthPath, options).error);
      HealthRun(config, respond, options)
        == Run(if chain.result.Ok? then Ok(ProbeResponse(chain.result.value.probe, chain.result.value.data)) else Err(chain.result.error),
               [GetCall(config, HealthPath, options)] + chain.trace)
  {
  }

  /** When `/v2/health` and all three probes fail, exactly four requests are made, in the order
      `/v2/health`, `/is-production`, `/test`, `/`, and the error of `/` is thrown. */
  lemma HealthExhausted(config: ClientConfig, respond: FetchCall -> FetchOutcome, options: RequestOptions)
    requires Answer(config, respond, HealthPath, options).Err?
    requires ShouldFallback(Answer(config, respond, HealthPath, options).error)
    requires Answer(config, respond, IsProductionPath, options).Err?
    requires Answer(config, respond, TestPath, options).Err?
    requires Answer(config, respond, RootPath, options).Err?
    ensures var run := HealthRun(config, respond, options);
      && run.trace == [GetCall(config, HealthPath, options), GetCall(config, IsProductionPath, options),
                       GetCall(config, TestPath, options), GetCall(config, RootPath, options)]
      && run.result == Err(Answer(config, respond, RootPath, options).error)
  {
    HealthFallback(config, respond, options);
    NoProbeAnswered(config, respond, options);
    HealthProbeCalls(config, options);
  }

  /** A server that answers every request with 404 `{"message": "Not found"}`: `health` makes
      all four requests and throws the 404 "Not found" that `/` answered. */
  lemma HealthAllNotFound(config: ClientConfig, respond: FetchCall -> FetchOutcome, options: RequestOptions)
    requires forall call :: respond(call) == Responded(404, JsonText(JObject(map["message" := JString("Not found")])))
    ensures var run := HealthRun(config, respond, options);
      && |run.trace| == 4
      && run.result == Err(Firecrawl(FirecrawlError("Not found", 404, Some(JObject(map["message" := JString("Not found")])))))
  {
    NotFoundMessage();
    HealthExhausted(config, respond, options);
  }

  /** One `Response` object answering every request: `/v2/health` reads its 404
      `{"message": "Not found"}` body, and each later request finds that body already read, so
      its `text()` rejects. The probes swallow those rejections and `health` throws the last
      one, not the 404. */
  lemma HealthReusedResponse(config: ClientConfig, respond: FetchCall -> FetchOutcome, options: RequestOptions, used: JsError)
    requires respond(GetCall(config, HealthPath, options)) == Responded(404, JsonText(JObject(map["message" := JString("Not found")])))
    requires respond(GetCall(config, IsProductionPath, options)) == Responded(404, ReadFailed(used))
    requires respond(GetCall(config, TestPath, options)) == Responded(404, ReadFailed(used))
    requires respond(GetCall(config, RootPath, options)) == Responded(404, ReadFailed(used))
    ensures var run := HealthRun(config, respond, options);
      && |run.trace| == 4
      && run.result == Err(Raised(used))
  {
    NotFoundMessage();
    ClassifyBodyReadFailure(404, used);
    HealthExhausted(config, respond, options);
  }

  lemma NoProbeAnswered(config: ClientConfig, respond: FetchCall -> FetchOutcome, options: RequestOptions)
    requires Answer(config, respond, IsProductionPath, options).Err?
    requires Answer(config, respond, TestPath, options).Err?
    requires Answer(config, respond, RootPath, options).Err?
    ensures FirstAnswered(config, respond, options, HealthProbes) == 3
  {
    var probes := HealthProbes;
    assert probes[1..][1..][1..] == [];
    assert FirstAnswered(config, respond, options, probes[1..][1..]) == 1;
    assert FirstAnswered(config, respond, options, probes[1..]) == 2;
  }

  /** The probes' requests, written out. */
  lemma HealthProbeCalls(config: ClientConfig, options: RequestOptions)
    ensures ProbeCalls(config, HealthProbes, options)
      == [GetCall(config, IsProductionPath, options), GetCall(config, TestPath, options), GetCall(config, RootPath, options)]
  {
    var calls := ProbeCalls(config, HealthProbes, options);
    assert calls[0] == GetCall(config, IsProductionPath, options);
    assert calls[1] == GetCall(config, TestPath, options);
    assert calls[2] == GetCall(config, RootPath, options);
  }

  /** A caller abort during the probes does not stop them: an `AbortError` from
      `/is-production` is swallowed and `/test` is still requested. */
  lemma HealthAbortDoesNotStopProbes(config: ClientConfig, respond: FetchCall -> FetchOutcome, options: RequestOptions, abort: JsError)
    requires Answer(config, respond, HealthPath, options).Err? && ShouldFallback(Answer(config, respond, HealthPath, options).error)
    requires abort.name == "AbortError"
    requires respond(GetCall(config, IsProductionPath, options)) == Rejected(abort)
    ensures |HealthRun(config, respond, options).trace| >= 3
    ensures HealthRun(config, respond, options).trace[2] == GetCall(config, TestPath, options)
  {
    assert Answer(config, respond, IsProductionPath, options).Err? by {
      ClassifyRejection(abort);
    }
    HealthRunsProbes(config, respond, options);
    ProbesGoOnAfterFirst(config, respond, options, Answer(config, respond, HealthPath, options).error);
  }

  /** When `/is-production` fails, the probe loop requests `/test` next. */
  lemma ProbesGoOnAfterFirst(config: ClientConfig, respond: FetchCall -> FetchOutcome, options: RequestOptions, e: Failure)
    requires Answer(config, respond, IsProductionPath, options).Err?
    ensures var trace := ProbeChain(config, respond, options, HealthProbes, e).trace;
      |trace| >= 2 && trace[1] == GetCall(config, TestPath, options)
  {
    assert HealthProbes[0].Path() == IsProductionPath && HealthProbes[1..] == [TestProbe, RootProbe];
  }

  /** `/v2/health` answers 404 and `/is-production` answers `{"isProduction": false}`: the result is
      `status: "ok"` with `checkedEndpoint: "/is-production"`, `fallback: true` and
      `isProduction: false`, after exactly two requests. */
  lemma HealthIsProductionScenario(config: ClientConfig, respond: FetchCall -> FetchOutcome, options: RequestOptions)
    requires Answer(config, respond, HealthPath, options).Err? && Is404(Answer(config, respond, HealthPath, options).error)
    requires respond(GetCall(config, IsProductionPath, options))
      == Responded(200, JsonText(JObject(map["isProduction" := JBool(false)])))
    ensures var run := HealthRun(config, respond, options);
      && run.trace == [GetCall(config, HealthPath, options), GetCall(config, IsProductionPath, options)]
      && run.result == Ok(ProbeResponse(IsProductionProbe, JObject(map["isProduction" := JBool(false)])))
  {
    var data := JObject(map["isProduction" := JBool(false)]);
    var e := Answer(config, respond, HealthPath, options).error;
    var call := GetCall(config, IsProductionPath, options);
    assert Answer(config, respond, IsProductionPath, options) == Ok(data);
    assert HealthProbes[0].Path() == IsProductionPath;
    assert ProbeChain(config, respond, options, HealthProbes, e) == Run(Ok(ProbeHit(IsProductionProbe, data)), [call]);
    HealthRunsProbes(config, respond, options);
  }

  /** The response for `/is-production` answering `{"isProduction": flag}`. */
  lemma ProductionProbeResponse(flag: bool)
    ensures var r := ProbeResponse(IsProductionProbe, JObject(map["isProduction" := JBool(flag)]));
      && Get(r, "status") == Some(JString("ok"))
      && GetIn(r, "info", "checkedEndpoint") == Some(JString("/is-production"))
      && GetIn(r, "info", "fallback") == Some(JBool(true))
      && GetIn(r, "info", "isProduction") == Some(JBool(flag))
  {
    var data := JObject(map["isProduction" := JBool(flag)]);
    ProductionFlagOf(flag);
    ProbeResponseTags(IsProductionProbe, data);
    ProbeResponseProduction(IsProductionProbe, data);
  }

  lemma ProductionFlagOf(flag: bool)
    ensures ProductionFlag(JObject(map["isProduction" := JBool(flag)])) == Some(flag)
  {
    assert Get(JObject(map["isProduction" := JBool(flag)]), "isProduction") == Some(JBool(flag));
  }

  // ---------------------------------------------------------------------------
  // activity

  /** The `crawls` list of a `/v1/crawl/active` answer; `[]` after a 404, a `success: false`
      or a missing list. */
  function CrawlsOf(answer: Result<Json, Failure>): (crawls: seq<Json>)
    ensures var listed := answer.Ok? && Get(answer.value, "success") != Some(JBool(false))
        && Get(answer.value, "crawls").Some? && Get(answer.value, "crawls").value.JArray?;
      && (listed ==> crawls == Get(answer.value, "crawls").value.items)
      && (!listed ==> crawls == [])
  {
    if answer.Ok? && Get(answer.value, "success") != Some(JBool(false)) then
      var crawls := Get(answer.value, "crawls");
      if crawls.Some? && crawls.value.JArray? then crawls.value.items else []
    else []
  }

  /** The `/v1/team/queue-status` answer, when it came back, was not `success: false`
      and is truthy. */
  function SnapshotOf(answer: Result<Json, Failure>): (s: Option<Json>)
    ensures s.Some? <==> answer.Ok? && Get(answer.value, "success") != Some(JBool(false)) && Truthy(answer.value)
    ensures s.Some? ==> s.value == answer.value
  {
    if answer.Ok? && Get(answer.value, "success") != Some(JBool(false)) && Truthy(answer.value) then Some(answer.value)
    else None
  }

  /** The item for one active crawl. */
  function CrawlItem(crawl: Json): (item: ActivityItem)
    ensures item.id == item.jobId
    ensures !IsNullish(Get(crawl, "id")) ==> item.id == Get(crawl, "id").value
    ensures item.kind == JString("crawl") && item.status == JString("active") && item.source == JString("v1/crawl/active")
    ensures item.url == OrNull(Get(crawl, "url"))
    ensures IsNullish(Get(crawl, "updatedAt")) && IsNullish(Get(crawl, "updated_at")) ==> item.updatedAt == item.createdAt
  {
    var created := OrNull(Coalesce(Get(crawl, "createdAt"), Get(crawl, "created_at")));
    var updated := Coalesce(Get(crawl, "updatedAt"), Get(crawl, "updated_at"));
    var identifier := OrNull(Coalesce(Get(crawl, "id"), Get(crawl, "jobId")));
    ActivityItem(identifier, identifier, JString("crawl"), JString("active"), OrNull(Get(crawl, "url")),
      created, if IsNullish(updated) then created else updated.value, JString("v1/crawl/active"))
  }

  /** A count from the queue snapshot, when it is a number. */
  function CountOf(snapshot: Json, key: string): (count: Option<int>)
    ensures count.Some? <==> Get(snapshot, key).Some? && Get(snapshot, key).value.JNumber?
    ensures count.Some? ==> Get(snapshot, key) == Some(JNumber(count.value))
  {
    var v := Get(snapshot, key);
    if v.Some? && v.value.JNumber? then Some(v.value.n) else None
  }

  /** The status text of the queue item: the numeric counts as `"A active"` and `"W waiting"`,
      joined by `" / "`, or `"snapshot"` when neither count is a number. */
  function QueueStatus(active: Option<int>, waiting: Option<int>): (r: string)
    ensures r == "snapshot" <==> active.None? && waiting.None?
    ensures active.Some? && waiting.Some? ==>
      r == Text.IntToString(active.value) + " active" + " / " + (Text.IntToString(waiting.value) + " waiting")
    ensures active.Some? && waiting.None? ==> r == Text.IntToString(active.value) + " active"
    ensures active.None? && waiting.Some? ==> r == Text.IntToString(waiting.value) + " waiting"
  {
    var activePart := if active.Some? then [Text.IntToString(active.value) + " active"] else [];
    var waitingPart := if waiting.Some? then [Text.IntToString(waiting.value) + " waiting"] else [];
    var parts := activePart + waitingPart;
    if |parts| > 0 then
      assert Text.Join(parts, " / ") != "snapshot" && (active.Some? && waiting.Some? ==> Text.Join(parts, " / ") == parts[0] + " / " + parts[1]) by {
        if active.Some? && waiting.Some? {
          JoinTwo(parts[0], parts[1], " / ");
          assert parts == [parts[0], parts[1]];
          CountTextNotSnapshot(active.value, " active" + " / " + parts[1]);
          
        } else if active.Some? {
          CountTextNotSnapshot(active.value, " active");
        } else {
          CountTextNotSnapshot(waiting.value, " waiting");
        }
      }
      Text.Join(parts, " / ")
    else "snapshot"
  }

  lemma JoinTwo(a: string, b: string, sep: string)
    ensures Text.Join([a, b], sep) == a + sep + b
  {
    assert [a, b][1..] == [b];
  }

  /** A rendered count never reads as the word "snapshot". */
  lemma CountTextNotSnapshot(n: int, suffix: string)
    ensures Text.IntToString(n) + suffix != "snapshot"
  {
    var s := Text.IntToString(n) + suffix;
    assert s[0] == Text.IntToString(n)[0];
    assert "snapshot"[0] == 's';
  }

  /** The item summarising the queue snapshot. */
  function QueueItem(snapshot: Json): (item: ActivityItem)
    ensures item.id == JString("queue-status") && item.jobId == JNull && item.kind == JString("queue")
    ensures item.url == JString("team queue status") && item.source == JString("v1/team/queue-status")
    ensures item.status == JString(QueueStatus(CountOf(snapshot, "activeJobsInQueue"), CountOf(snapshot, "waitingJobsInQueue")))
    ensures item.createdAt == item.updatedAt == OrNull(Get(snapshot, "mostRecentSuccess"))
  {
    var recent := OrNull(Get(snapshot, "mostRecentSuccess"));
    ActivityItem(JString("queue-status"), JNull, JString("queue"),
      JString(QueueStatus(CountOf(snapshot, "activeJobsInQueue"), CountOf(snapshot, "waitingJobsInQueue"))),
      JString("team queue status"), recent, recent, JString("v1/team/queue-status"))
  }

  /** `FirecrawlError(404)` thrown when neither legacy source of an operation yields data. */
  function Unavailable(what: string): Failure {
    Firecrawl(FirecrawlError("Legacy " + what + " endpoints unavailable", 404, None))
  }

  /** The merged legacy activity: one item per crawl in order, then at most one queue item.
      A `null` element of `crawls` makes the loop throw when it reads its fields. */
  function LegacyActivityItems(crawls: seq<Json>, snapshot: Option<Json>): (r: Result<seq<ActivityItem>, Failure>)
    ensures r == Err(Unavailable("activity")) <== crawls == [] && snapshot.None?
    ensures r.Ok? <==> (crawls != [] || snapshot.Some?) && JNull !in crawls
    ensures r.Ok? ==>
      && |r.value| == |crawls| + (if snapshot.Some? then 1 else 0)
      && (forall i :: 0 <= i < |crawls| ==> r.value[i] == CrawlItem(crawls[i]))
      && (snapshot.Some? ==> r.value[|crawls|] == QueueItem(snapshot.value))
  {
    if crawls == [] && snapshot.None? then Err(Unavailable("activity"))
    else if JNull in crawls then Err(Raised(NullPropertyRead))
    else Ok(seq(|crawls|, i requires 0 <= i < |crawls| => CrawlItem(crawls[i]))
            + (if snapshot.Some? then [QueueItem(snapshot.value)] else []))
  }

  /** `fetchLegacyActivity`: `/v1/crawl/active`, then `/v1/team/queue-status`; a 404 from either is
      tolerated, any other error is thrown at once. */
  function LegacyActivityRun(config: ClientConfig, respond: FetchCall -> FetchOutcome, options: RequestOptions): (run: Run<seq<ActivityItem>>)
    ensures var crawls := Answer(config, respond, CrawlActivePath, options);
      var queue := Answer(config, respond, QueueStatusPath, options);
      && (crawls.Err? && !Is404(crawls.error) ==> run == Run(Err(crawls.error), [GetCall(config, CrawlActivePath, options)]))
      && (!(crawls.Err? && !Is404(crawls.error)) ==>
            && run.trace == [GetCall(config, CrawlActivePath, options), GetCall(config, QueueStatusPath, options)]
            && (queue.Err? && !Is404(queue.error) ==> run.result == Err(queue.error))
            && (!(queue.Err? && !Is404(queue.error)) ==> run.result == LegacyActivityItems(CrawlsOf(crawls), SnapshotOf(queue))))
  {
    var first := GetCall(config, CrawlActivePath, options);
    var crawls := Classify(respond(first));
    if crawls.Err? && !Is404(crawls.error) then Run(Err(crawls.error), [first])
    else
      var second := GetCall(config, QueueStatusPath, options);
      var queue := Classify(respond(second));
      if queue.Err? && !Is404(queue.error) then Run(Err(queue.error), [first, second])
      else Run(LegacyActivityItems(CrawlsOf(crawls), SnapshotOf(queue)), [first, second])
  }

  /** The items as the JSON array the client returns. */
  function ItemsJson(items: seq<ActivityItem>): (j: Json)
    ensures j.JArray? && |j.items| == |items|
    ensures forall i :: 0 <= i < |items| ==> j.items[i] == items[i].ToJson()
  {
    JArray(seq(|items|, i requires 0 <= i < |items| => items[i].ToJson()))
  }

  /** `activity`. */
  function ActivityRun(config: ClientConfig, respond: FetchCall -> FetchOutcome, options: RequestOptions): (run: Run<Json>)
    ensures var a := Answer(config, respond, ActivityPath, options);
      && (!(a.Err? && Is404(a.error)) ==> run == Run(a, [GetCall(config, ActivityPath, options)]))
      && (a.Err? && Is404(a.error) ==>
            var legacy := LegacyActivityRun(config, respond, options);
            && run.trace == [GetCall(config, ActivityPath, options)] + legacy.trace
            && (run.result.Ok? <==> legacy.result.Ok?)
            && (run.result.Ok? ==> run.result.value == ItemsJson(legacy.result.value))
            && (run.result.Err? ==> run.result.error == legacy.result.error))
  {
    var call := GetCall(config, ActivityPath, options);
    match Classify(respond(call))
    case Ok(items) => Run(Ok(items), [call])
    case Err(e) =>
      if !Is404(e) then Run(Err(e), [call])
      else
        var legacy := LegacyActivityRun(config, respond, options);
        Run(if legacy.result.Ok? then Ok(ItemsJson(legacy.result.value)) else Err(legacy.result.error), [call] + legacy.trace)
  }

  /** `activity` switches to the legacy endpoints only on a 404 `FirecrawlError` from `/v2/activity`;
      any other error is thrown after that single request. */
  lemma ActivitySwitchesOnlyOn404(config: ClientConfig, respond: FetchCall -> FetchOutcome, options: RequestOptions)
    ensures var a := Answer(config, respond, ActivityPath, options);
      var run := ActivityRun(config, respond, options);
      && (a.Ok? ==> run == Run(a, [GetCall(config, ActivityPath, options)]))
      && (a.Err? && !Is404(a.error) ==> run == Run(a, [GetCall(config, ActivityPath, options)]))
      && (a.Err? && Is404(a.error) ==>
            run.trace == [GetCall(config, ActivityPath, options)] + LegacyActivityRun(config, respond, options).trace)
  {
  }

  /** The legacy sources are requested one after the other, the queue status only when the crawl
      listing answered or was a 404; when both are absent (404) the result is the 404
      "Legacy activity endpoints unavailable". */
  lemma LegacyActivitySequencing(config: ClientConfig, respond: FetchCall -> FetchOutcome, options: RequestOptions)
    ensures var run := LegacyActivityRun(config, respond, options);
      var crawls := Answer(config, respond, CrawlActivePath, options);
      && run.trace[0] == GetCall(config, CrawlActivePath, options)
      && (|run.trace| == 1 <==> crawls.Err? && !Is404(crawls.error))
      && (|run.trace| == 1 ==> run.result == Err(crawls.error))
      && (|run.trace| != 1 ==> run.trace == [GetCall(config, CrawlActivePath, options), GetCall(config, QueueStatusPath, options)])
      && (crawls.Err? && Is404(crawls.error) && Answer(config, respond, QueueStatusPath, options).Err?
          && Is404(Answer(config, respond, QueueStatusPath, options).error)
          ==> run.result == Err(Unavailable("activity")))
  {
  }

  /** A crawl's item is identified by `id`, else `jobId`; both keys hold that identifier. */
  lemma CrawlItemIdentity(crawl: Json)
    ensures CrawlItem(crawl).id == CrawlItem(crawl).jobId
    ensures !IsNullish(Get(crawl, "id")) ==> CrawlItem(crawl).id == Get(crawl, "id").value
    ensures IsNullish(Get(crawl, "id")) && Get(crawl, "jobId").Some? ==> CrawlItem(crawl).id == Get(crawl, "jobId").value
    ensures IsNullish(Get(crawl, "id")) && IsNullish(Get(crawl, "jobId")) ==> CrawlItem(crawl).id == JNull
    ensures CrawlItem(crawl).kind == JString("crawl") && CrawlItem(crawl).status == JString("active")
    ensures CrawlItem(crawl).source == JString("v1/crawl/active")
  {
  }

  /** A crawl's creation time is `createdAt`, else `created_at`; its update time is `updatedAt`,
      else `updated_at`, else the creation time. */
  lemma CrawlItemTimestamps(crawl: Json)
    ensures !IsNullish(Get(crawl, "createdAt")) ==> CrawlItem(crawl).createdAt == Get(crawl, "createdAt").value
    ensures IsNullish(Get(crawl, "createdAt")) ==> CrawlItem(crawl).createdAt == OrNull(Get(crawl, "created_at"))
    ensures !IsNullish(Get(crawl, "updatedAt")) ==> CrawlItem(crawl).updatedAt == Get(crawl, "updatedAt").value
    ensures IsNullish(Get(crawl, "updatedAt")) && !IsNullish(Get(crawl, "updated_at"))
      ==> CrawlItem(crawl).updatedAt == Get(crawl, "updated_at").value
    ensures IsNullish(Get(crawl, "updatedAt")) && IsNullish(Get(crawl, "updated_at"))
      ==> CrawlItem(crawl).updatedAt == CrawlItem(crawl).createdAt
  {
  }

  /** `/v2/activity` 404; one crawl with `created_at` and no update time; a queue snapshot with
      1 active and 0 waiting: exactly two items, the crawl (updated at its creation time) and then
      the queue item with status "1 active / 0 waiting". */
  lemma ActivityMergeScenario(config: ClientConfig, respond: FetchCall -> FetchOutcome, options: RequestOptions,
                              id: string, created: string, recent: string)
    requires Answer(config, respond, ActivityPath, options).Err? && Is404(Answer(config, respond, ActivityPath, options).error)
    requires respond(GetCall(config, CrawlActivePath, options)) == Responded(200, JsonText(JObject(map[
      "success" := JBool(true),
      "crawls" := JArray([JObject(map["id" := JString(id), "created_at" := JString(created)])])])))
    requires respond(GetCall(config, QueueStatusPath, options)) == Responded(200, JsonText(JObject(map[
      "activeJobsInQueue" := JNumber(1), "waitingJobsInQueue" := JNumber(0),
      "mostRecentSuccess" := JString(recent)])))
    ensures var legacy := LegacyActivityRun(config, respond, options);
      && legacy.result.Ok? && |legacy.result.value| == 2
      && legacy.result.value[0].id == JString(id)
      && legacy.result.value[0].updatedAt == JString(created)
      && legacy.result.value[0].source == JString("v1/crawl/active")
      && legacy.result.value[1].id == JString("queue-status")
      && legacy.result.value[1].status == JString("1 active / 0 waiting")
      && legacy.result.value[1].source == JString("v1/team/queue-status")
      && ActivityRun(config, respond, options).result == Ok(ItemsJson(legacy.result.value))
  {
    var crawl := JObject(map["id" := JString(id), "created_at" := JString(created)]);
    var listing := JObject(map["success" := JBool(true), "crawls" := JArray([crawl])]);
    var snapshot := JObject(map["activeJobsInQueue" := JNumber(1), "waitingJobsInQueue" := JNumber(0),
      "mostRecentSuccess" := JString(recent)]);
    assert Answer(config, respond, CrawlActivePath, options) == Ok(listing);
    assert Answer(config, respond, QueueStatusPath, options) == Ok(snapshot);
    ListingScenario(crawl);
    SnapshotScenario(recent);
    assert LegacyActivityRun(config, respond, options).result == LegacyActivityItems([crawl], Some(snapshot));
    CrawlScenario(id, created);
    QueueScenario(recent);
  }

  lemma ListingScenario(crawl: Json)
    ensures CrawlsOf(Ok(JObject(map["success" := JBool(true), "crawls" := JArray([crawl])]))) == [crawl]
  {
    var listing := JObject(map["success" := JBool(true), "crawls" := JArray([crawl])]);
    assert Get(listing, "success") == Some(JBool(true));
    assert Get(listing, "crawls") == Some(JArray([crawl]));
  }

  lemma SnapshotScenario(recent: string)
    ensures var snapshot := JObject(map["activeJobsInQueue" := JNumber(1), "waitingJobsInQueue" := JNumber(0),
      "mostRecentSuccess" := JString(recent)]);
      SnapshotOf(Ok(snapshot)) == Some(snapshot)
  {
    var snapshot := JObject(map["activeJobsInQueue" := JNumber(1), "waitingJobsInQueue" := JNumber(0),
      "mostRecentSuccess" := JString(recent)]);
    assert Get(snapshot, "success") == None;
  }

  lemma CrawlScenario(id: string, created: string)
    ensures var item := CrawlItem(JObject(map["id" := JString(id), "created_at" := JString(created)]));
      item.id == JString(id) && item.updatedAt == JString(created) && item.source == JString("v1/crawl/active")
  {
    var crawl := JObject(map["id" := JString(id), "created_at" := JString(created)]);
    CrawlItemIdentity(crawl);
    CrawlItemTimestamps(crawl);
    assert Get(crawl, "id") == Some(JString(id));
    assert Get(crawl, "createdAt") == None && Get(crawl, "created_at") == Some(JString(created));
    assert Get(crawl, "updatedAt") == None && Get(crawl, "updated_at") == None;
  }

  lemma QueueScenario(recent: string)
    ensures var item := QueueItem(JObject(map["activeJobsInQueue" := JNumber(1), "waitingJobsInQueue" := JNumber(0),
      "mostRecentSuccess" := JString(recent)]));
      && item.id == JString("queue-status")
      && item.status == JString("1 active / 0 waiting")
      && item.source == JString("v1/team/queue-status")
  {
    var snapshot := JObject(map["activeJobsInQueue" := JNumber(1), "waitingJobsInQueue" := JNumber(0),
      "mostRecentSuccess" := JString(recent)]);
    assert CountOf(snapshot, "activeJobsInQueue") == Some(1);
    assert CountOf(snapshot, "waitingJobsInQueue") == Some(0);
    assert Text.IntToString(1) == "1" && Text.IntToString(0) == "0";
    assert "1" + " active" + " / " + ("0" + " waiting") == "1 active / 0 waiting";
  }

  // ---------------------------------------------------------------------------
  // usage

  /** The `data` of a legacy usage answer, when the answer came back, was not `success: false`
      and carries truthy `data`. */
  function UsageData(answer: Option<Json>): (d: Option<Json>)
    ensures d.Some? <==>
      && answer.Some? && Get(answer.value, "success") != Some(JBool(false))
      && Get(answer.value, "data").Some? && Truthy(Get(answer.value, "data").value)
    ensures d.Some? ==> Get(answer.value, "data") == d
  {
    if answer.Some? && Get(answer.value, "success") != Some(JBool(false)) then
      var data := Get(answer.value, "data");
      if data.Some? && Truthy(data.value) then data else None
    else None
  }

  const CreditKeys: set<string> := {"creditsRemaining", "creditsPlan", "creditsPeriodStart", "creditsPeriodEnd"}
  const TokenKeys: set<string> := {"tokensRemaining", "tokensPlan", "tokensPeriodStart", "tokensPeriodEnd"}

  /** The answer of a tolerated legacy request: `None` after a 404. */
  function Tolerated(answer: Result<Json, Failure>): Option<Json> {
    if answer.Ok? then Some(answer.value) else None
  }

  /** Whether a legacy answer counts as present (`!result` is false). */
  predicate Present(answer: Option<Json>) {
    answer.Some? && Truthy(answer.value)
  }

  /** `fetchLegacyUsage`: `/v1/team/credit-usage`, then `/v1/team/token-usage`; a 404 from either
      is tolerated, any other error is thrown at once. */
  function LegacyUsageRun(config: ClientConfig, respond: FetchCall -> FetchOutcome, options: RequestOptions): (run: Run<JsonObject>)
    ensures var credit := Answer(config, respond, CreditUsagePath, options);
      var token := Answer(config, respond, TokenUsagePath, options);
      && (credit.Err? && !Is404(credit.error) ==> run == Run(Err(credit.error), [GetCall(config, CreditUsagePath, options)]))
      && (!(credit.Err? && !Is404(credit.error)) ==>
            && run.trace == [GetCall(config, CreditUsagePath, options), GetCall(config, TokenUsagePath, options)]
            && (token.Err? && !Is404(token.error) ==> run.result == Err(token.error))
            && (!(token.Err? && !Is404(token.error)) ==> run.result == UsageSummaryOf(Tolerated(credit), Tolerated(token))))
  {
    var first := GetCall(config, CreditUsagePath, options);
    var credit := Classify(respond(first));
    if credit.Err? && !Is404(credit.error) then Run(Err(credit.error), [first])
    else
      var second := GetCall(config, TokenUsagePath, options);
      var token := Classify(respond(second));
      if token.Err? && !Is404(token.error) then Run(Err(token.error), [first, second])
      else Run(UsageSummaryOf(Tolerated(credit), Tolerated(token)), [first, second])
  }

  /** The summary's fixed part. */
  const UsageBase: JsonObject := map["plan" := JString("self-hosted"), "source" := JString("v1/team/usage")]

  /** `summary` with the four credit figures assigned from the credit answer's `data`, each
      `null` where the data has none. */
  function WithCreditFigures(summary: JsonObject, data: Json): (m: JsonObject)
    ensures m.Keys == summary.Keys + CreditKeys
  {
    summary["creditsRemaining" := OrNull(Get(data, "remaining_credits"))]
           ["creditsPlan" := OrNull(Get(data, "plan_credits"))]
           ["creditsPeriodStart" := OrNull(Get(data, "billing_period_start"))]
           ["creditsPeriodEnd" := OrNull(Get(data, "billing_period_end"))]
  }

  /** `summary` with the four token figures assigned from the token answer's `data`, each
      `null` where the data has none. */
  function WithTokenFigures(summary: JsonObject, data: Json): (m: JsonObject)
    ensures m.Keys == summary.Keys + TokenKeys
  {
    summary["tokensRemaining" := OrNull(Get(data, "remaining_tokens"))]
           ["tokensPlan" := OrNull(Get(data, "plan_tokens"))]
           ["tokensPeriodStart" := OrNull(Get(data, "billing_period_start"))]
           ["tokensPeriodEnd" := OrNull(Get(data, "billing_period_end"))]
  }

  /** The merged usage summary: the fixed part, then the credit figures, then the token figures. */
  function UsageSummaryOf(credit: Option<Json>, token: Option<Json>): (r: Result<JsonObject, Failure>)
    ensures r.Err? <==> !Present(credit) && !Present(token)
    ensures r.Err? ==> r.error == Unavailable("usage")
    ensures r.Ok? ==> "plan" in r.value && "source" in r.value
    ensures r.Ok? ==> (CreditKeys <= r.value.Keys <==> UsageData(credit).Some?)
    ensures r.Ok? ==> (TokenKeys <= r.value.Keys <==> UsageData(token).Some?)
  {
    if !Present(credit) && !Present(token) then Err(Unavailable("usage"))
    else
      var cd := UsageData(credit);
      var td := UsageData(token);
      var withCredit := if cd.Some? then WithCreditFigures(UsageBase, cd.value) else UsageBase;
      UsageKeysDisjoint();
      Ok(if td.Some? then WithTokenFigures(withCredit, td.value) else withCredit)
  }

  /** The fixed keys and the two groups of figures are pairwise distinct. */
  lemma UsageKeysDisjoint()
    ensures UsageBase.Keys !! CreditKeys && UsageBase.Keys !! TokenKeys && CreditKeys !! TokenKeys
  {
  }

  /** Neither answer present gives the 404 "Legacy usage endpoints unavailable"; otherwise the
      summary has `plan` and `source`, the credit keys exactly when the credit answer has data and
      is not `success: false`, likewise the token keys, and nothing else. */
  lemma UsageSummaryShape(credit: Option<Json>, token: Option<Json>)
    ensures UsageSummaryOf(credit, token).Err? <==> !Present(credit) && !Present(token)
    ensures UsageSummaryOf(credit, token).Err? ==> UsageSummaryOf(credit, token).error == Unavailable("usage")
    ensures var r := UsageSummaryOf(credit, token);
      r.Ok? ==>
        && r.value.Keys == {"plan", "source"}
             + (if UsageData(credit).Some? then CreditKeys else {})
             + (if UsageData(token).Some? then TokenKeys else {})
        && r.value["plan"] == JString("self-hosted")
        && r.value["source"] == JString("v1/team/usage")
  {
    UsageKeysDisjoint();
  }

  /** Each credit figure of the summary is the credit answer's value (`null` when missing), and
      each token figure the token answer's. */
  lemma UsageSummaryFigures(credit: Option<Json>, token: Option<Json>)
    requires UsageSummaryOf(credit, token).Ok?
    ensures var r := UsageSummaryOf(credit, token).value;
      && (UsageData(credit).Some? ==>
            var data := UsageData(credit).value;
            && CreditKeys <= r.Keys
            && r["creditsRemaining"] == OrNull(Get(data, "remaining_credits"))
            && r["creditsPlan"] == OrNull(Get(data, "plan_credits"))
            && r["creditsPeriodStart"] == OrNull(Get(data, "billing_period_start"))
            && r["creditsPeriodEnd"] == OrNull(Get(data, "billing_period_end")))
      && (UsageData(token).Some? ==>
            var data := UsageData(token).value;
            && TokenKeys <= r.Keys
            && r["tokensRemaining"] == OrNull(Get(data, "remaining_tokens"))
            && r["tokensPlan"] == OrNull(Get(data, "plan_tokens"))
            && r["tokensPeriodStart"] == OrNull(Get(data, "billing_period_start"))
            && r["tokensPeriodEnd"] == OrNull(Get(data, "billing_period_end")))
  {
    UsageKeysDisjoint();
  }

  /** `usage`. */
  function UsageRun(config: ClientConfig, respond: FetchCall -> FetchOutcome, options: RequestOptions): (run: Run<Json>)
    ensures var a := Answer(config, respond, UsagePath, options);
      && (!(a.Err? && Is404(a.error)) ==> run == Run(a, [GetCall(config, UsagePath, options)]))
      && (a.Err? && Is404(a.error) ==>
            var legacy := LegacyUsageRun(config, respond, options);
            && run.trace == [GetCall(config, UsagePath, options)] + legacy.trace
            && (run.result.Ok? <==> legacy.result.Ok?)
            && (run.result.Ok? ==> run.result.value == JObject(legacy.result.value))
            && (run.result.Err? ==> run.result.error == legacy.result.error))
  {
    var call := GetCall(config, UsagePath, options);
    match Classify(respond(call))
    case Ok(summary) => Run(Ok(summary), [call])
    case Err(e) =>
      if !Is404(e) then Run(Err(e), [call])
      else
        var legacy := LegacyUsageRun(config, respond, options);
        Run(if legacy.result.Ok? then Ok(JObject(legacy.result.value)) else Err(legacy.result.error), [call] + legacy.trace)
  }

  /** `usage` switches to the legacy endpoints only on a 404 `FirecrawlError` from `/v2/usage`;
      in legacy mode a non-404 error from the credit endpoint stops before the token endpoint
      is requested. */
  lemma UsageSequencing(config: ClientConfig, respond: FetchCall -> FetchOutcome, options: RequestOptions)
    ensures var a := Answer(config, respond, UsagePath, options);
      var run := UsageRun(config, respond, options);
      && (!(a.Err? && Is404(a.error)) ==> run == Run(a, [GetCall(config, UsagePath, options)]))
      && (a.Err? && Is404(a.error) ==>
            var credit := Answer(config, respond, CreditUsagePath, options);
            && run.trace[..2] == [GetCall(config, UsagePath, options), GetCall(config, CreditUsagePath, options)]
            && (credit.Err? && !Is404(credit.error) ==> run == Run(credit, run.trace[..2]))
            && (!(credit.Err? && !Is404(credit.error)) ==>
                  run.trace == [GetCall(config, UsagePath, options), GetCall(config, CreditUsagePath, options),
                                GetCall(config, TokenUsagePath, options)]))
  {
  }

  /** `/v2/usage` 404; credit usage reports 500 of 1000 credits, token usage 750 of 1500 tokens:
      the summary is self-hosted with exactly those four figures. */
  lemma UsageMergeScenario(config: ClientConfig, respond: FetchCall -> FetchOutcome, options: RequestOptions)
    requires Answer(config, respond, UsagePath, options).Err? && Is404(Answer(config, respond, UsagePath, options).error)
    requires respond(GetCall(config, CreditUsagePath, options)) == Responded(200, JsonText(JObject(map[
      "success" := JBool(true),
      "data" := JObject(map["remaining_credits" := JNumber(500), "plan_credits" := JNumber(1000)])])))
    requires respond(GetCall(config, TokenUsagePath, options)) == Responded(200, JsonText(JObject(map[
      "success" := JBool(true),
      "data" := JObject(map["remaining_tokens" := JNumber(750), "plan_tokens" := JNumber(1500)])])))
    ensures var r := UsageRun(config, respond, options).result;
      && r.Ok?
      && Get(r.value, "plan") == Some(JString("self-hosted"))
      && Get(r.value, "creditsRemaining") == Some(JNumber(500))
      && Get(r.value, "creditsPlan") == Some(JNumber(1000))
      && Get(r.value, "tokensRemaining") == Some(JNumber(750))
      && Get(r.value, "tokensPlan") == Some(JNumber(1500))
  {
    var creditData := JObject(map["remaining_credits" := JNumber(500), "plan_credits" := JNumber(1000)]);
    var creditBody := JObject(map["success" := JBool(true), "data" := creditData]);
    var tokenData := JObject(map["remaining_tokens" := JNumber(750), "plan_tokens" := JNumber(1500)]);
    var tokenBody := JObject(map["success" := JBool(true), "data" := tokenData]);
    assert Answer(config, respond, CreditUsagePath, options) == Ok(creditBody);
    assert Answer(config, respond, TokenUsagePath, options) == Ok(tokenBody);
    assert LegacyUsageRun(config, respond, options).result == UsageSummaryOf(Some(creditBody), Some(tokenBody));
    UsageScenarioSummary(creditBody, tokenBody);
  }

  /** The summary merged from those two answers. */
  lemma UsageScenarioSummary(creditBody: Json, tokenBody: Json)
    requires creditBody == JObject(map["success" := JBool(true),
      "data" := JObject(map["remaining_credits" := JNumber(500), "plan_credits" := JNumber(1000)])])
    requires tokenBody == JObject(map["success" := JBool(true),
      "data" := JObject(map["remaining_tokens" := JNumber(750), "plan_tokens" := JNumber(1500)])])
    ensures var r := UsageSummaryOf(Some(creditBody), Some(tokenBody));
      && r.Ok?
      && Get(JObject(r.value), "plan") == Some(JString("self-hosted"))
      && Get(JObject(r.value), "creditsRemaining") == Some(JNumber(500))
      && Get(JObject(r.value), "creditsPlan") == Some(JNumber(1000))
      && Get(JObject(r.value), "tokensRemaining") == Some(JNumber(750))
      && Get(JObject(r.value), "tokensPlan") == Some(JNumber(1500))
  {
    var creditData := JObject(map["remaining_credits" := JNumber(500), "plan_credits" := JNumber(1000)]);
    var tokenData := JObject(map["remaining_tokens" := JNumber(750), "plan_tokens" := JNumber(1500)]);
    UsageDataScenario(creditData);
    UsageDataScenario(tokenData);
    UsageSummaryShape(Some(creditBody), Some(tokenBody));
    UsageSummaryFigures(Some(creditBody), Some(tokenBody));
    GetFromPair("remaining_credits", JNumber(500), "plan_credits", JNumber(1000));
    GetFromPair("remaining_tokens", JNumber(750), "plan_tokens", JNumber(1500));
  }

  lemma UsageDataScenario(data: Json)
    requires Truthy(data)
    ensures UsageData(Some(JObject(map["success" := JBool(true), "data" := data])))  == Some(data)
  {
    GetFromPair("success", JBool(true), "data", data);
  }
}
