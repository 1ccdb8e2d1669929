/** The client object `createFirecrawlClient` returns: a normalised configuration, the
    injected network, and one method per operation. Every method is proved to make exactly
    the requests, and to return exactly the result, that the matching function of `Prober`
    (or `Transport.Request` for the plain bindings) describes. */
module Client {
  import opened Base
  import opened Js
  import opened Transport
  import opened Domain
  import opened Prober

  const ScrapePath := "/v2/scrape"
  const SearchPath := "/v2/search"
  const CrawlPath := "/v2/crawl"
  const ExtractPath := "/v2/extract"
  const ChangelogPath := "/v2/changelog"

  /** The push loop of `fetchLegacyActivity`: one item per crawl, in order; reading the fields
      of a `null` crawl throws a `TypeError`. */
  method PushCrawlItems(crawls: seq<Json>) returns (r: Result<seq<ActivityItem>, Failure>)
    ensures r.Ok? <==> JNull !in crawls
    ensures r.Err? ==> r.error == Raised(NullPropertyRead)
    ensures r.Ok? ==> |r.value| == |crawls| && forall k :: 0 <= k < |crawls| ==> r.value[k] == CrawlItem(crawls[k])
  {
    var items: seq<ActivityItem> := [];
    var i := 0;
    while i < |crawls|
      invariant 0 <= i <= |crawls|
      invariant JNull !in crawls[..i]
      invariant |items| == i
      invariant forall k :: 0 <= k < i ==> items[k] == CrawlItem(crawls[k])
    {
      if crawls[i] == JNull {
        r := Err(Raised(NullPropertyRead));
        return;
      }
      assert crawls[..i + 1] == crawls[..i] + [crawls[i]];
      items := items + [CrawlItem(crawls[i])];
      i := i + 1;
    }
    assert crawls[..i] == crawls;
    r := Ok(items);
  }

  /** The end of `fetchLegacyUsage`: the 404 when neither answer is present, otherwise the
      summary filled in by successive assignments, credit figures first. */
  method MergeUsage(creditResult: Option<Json>, tokenResult: Option<Json>) returns (r: Result<JsonObject, Failure>)
    ensures r == UsageSummaryOf(creditResult, tokenResult)
  {
    hide Get, OrNull, Truthy;
    if !Present(creditResult) && !Present(tokenResult) {
      r := Err(Unavailable("usage"));
      return;
    }

    var summary: JsonObject := UsageBase;
    if creditResult.None? || Get(creditResult.value, "success") != Some(JBool(false)) {
      var data := if creditResult.Some? then Get(creditResult.value, "data") else None;
      if data.Some? && Truthy(data.value) {
        summary := summary["creditsRemaining" := OrNull(Get(data.value, "remaining_credits"))];
        summary := summary["creditsPlan" := OrNull(Get(data.value, "plan_credits"))];
        summary := summary["creditsPeriodStart" := OrNull(Get(data.value, "billing_period_start"))];
        summary := summary["creditsPeriodEnd" := OrNull(Get(data.value, "billing_period_end"))];
      }
    }
    assert summary == if UsageData(creditResult).Some? then WithCreditFigures(UsageBase, UsageData(creditResult).value) else UsageBase;
    ghost var withCredit := summary;
    if tokenResult.None? || Get(tokenResult.value, "success") != Some(JBool(false)) {
      var data := if tokenResult.Some? then Get(tokenResult.value, "data") else None;
      if data.Some? && Truthy(data.value) {
        summary := summary["tokensRemaining" := OrNull(Get(data.value, "remaining_tokens"))];
        summary := summary["tokensPlan" := OrNull(Get(data.value, "plan_tokens"))];
        summary := summary["tokensPeriodStart" := OrNull(Get(data.value, "billing_period_start"))];
        summary := summary["tokensPeriodEnd" := OrNull(Get(data.value, "billing_period_end"))];
      }
    }
    assert summary == if UsageData(tokenResult).Some? then WithTokenFigures(withCredit, UsageData(tokenResult).value) else withCredit;
    r := Ok(summary);
  }

  class FirecrawlClient {
    /** `safeConfig`, fixed at construction. */
    const config: ClientConfig
    /** The `fetch` the client talks through. */
    const net: Network

    /** `createFirecrawlClient(config)`. */
    constructor (baseUrl: string, apiKey: Option<string>, net: Network)
      ensures config == SafeConfig(baseUrl, apiKey)
      ensures this.net == net
    {
      config := SafeConfig(baseUrl, apiKey);
      this.net := net;
    }

    /** `health`: `/v2/health`, then the probes in order until one answers. */
    method Health(options: RequestOptions) returns (r: Result<Json, Failure>)
      modifies net
      ensures r == HealthRun(config, net.respond, options).result
      ensures net.calls == old(net.calls) + HealthRun(config, net.respond, options).trace
    {
      hide ProbeChain, Classify, ProbeResponse, AttachProbeMetadata;
      var first := Request(net, config, HealthPath, GET, None, options);
      if first.Ok? {
        r := Ok(AttachProbeMetadata(first.value, HealthPath, false, map[]));
        return;
      }
      if !ShouldFallback(first.error) {
        r := first;
        return;
      }
      var hit := RunProbes(HealthProbes, first.error, options);
      HealthRunsProbes(config, net.respond, options);
      r := if hit.Ok? then Ok(ProbeResponse(hit.value.probe, hit.value.data)) else Err(hit.error);
    }

    /** The probe loop of `health`: the probes in order until one answers; every failure is
        swallowed and remembered, and the last one is thrown when none answers. */
    method RunProbes(probes: seq<Probe>, firstError: Failure, options: RequestOptions) returns (r: Result<ProbeHit, Failure>)
      modifies net
      ensures r == ProbeChain(config, net.respond, options, probes, firstError).result
      ensures net.calls == old(net.calls) + ProbeChain(config, net.respond, options, probes, firstError).trace
    {
      // The loop is argued one step at a time by the lemmas about `ProbeChain`.
      hide ProbeChain, Classify, BuildCall;
      ghost var made: seq<FetchCall> := [];
      var lastError := firstError;
      var i := 0;
      ProbeChainStarts(config, net.respond, options, probes, firstError);
      while i < |probes|
        invariant 0 <= i <= |probes|
        invariant net.calls == old(net.calls) + made
        invariant ProbeChain(config, net.respond, options, probes, firstError)
          == Run(ProbeChain(config, net.respond, options, probes[i..], lastError).result,
                 made + ProbeChain(config, net.respond, options, probes[i..], lastError).trace)
      {
        var probe := probes[i];
        var answer := Request(net, config, probe.Path(), GET, None, options);
        made := made + [GetCall(config, probe.Path(), options)];
        if answer.Ok? {
          ProbeChainStops(config, net.respond, options, probes, i, lastError);
          r := Ok(ProbeHit(probe, answer.value));
          return;
        }
        ProbeChainAdvances(config, net.respond, options, probes, i, lastError);
        lastError := answer.error;
        i := i + 1;
      }
      ProbeChainEnds(config, net.respond, options, probes, lastError);
      r := Err(lastError);
    }

    /** `fetchLegacyActivity`: the crawl listing, then the queue snapshot, then one item per
        crawl pushed in order and the queue item last. */
    method FetchLegacyActivity(options: RequestOptions) returns (r: Result<seq<ActivityItem>, Failure>)
      modifies net
      ensures r == LegacyActivityRun(config, net.respond, options).result
      ensures net.calls == old(net.calls) + LegacyActivityRun(config, net.respond, options).trace
    {
      hide Classify, CrawlsOf, CrawlItem, QueueItem;
      var listing := Request(net, config, CrawlActivePath, GET, None, options);
      if listing.Err? && !Is404(listing.error) {
        r := Err(listing.error);
        return;
      }
      var crawls := CrawlsOf(listing);
      var queue := Request(net, config, QueueStatusPath, GET, None, options);
      if queue.Err? && !Is404(queue.error) {
        r := Err(queue.error);
        return;
      }
      var queueSnapshot := SnapshotOf(queue);
      if |crawls| == 0 && queueSnapshot.None? {
        r := Err(Unavailable("activity"));
        return;
      }
      var pushed := PushCrawlItems(crawls);
      if pushed.Err? {
        assert LegacyActivityItems(crawls, queueSnapshot) == pushed;
        r := pushed;
        return;
      }
      var items := pushed.value;
      if queueSnapshot.Some? {
        items := items + [QueueItem(queueSnapshot.value)];
      }
      ghost var spec := LegacyActivityItems(crawls, queueSnapshot);
      assert spec.Ok?;
      assert |spec.value| == |items|;
      assert forall k :: 0 <= k < |items| ==> items[k] == spec.value[k];
      assert spec.value == items;
      r := Ok(items);
    }

    /** `activity`: `/v2/activity`, and on a 404 the legacy merge. */
    method Activity(options: RequestOptions) returns (r: Result<Json, Failure>)
      modifies net
      ensures r == ActivityRun(config, net.respond, options).result
      ensures net.calls == old(net.calls) + ActivityRun(config, net.respond, options).trace
    {
      hide Classify, LegacyActivityRun, ItemsJson, LegacyActivityItems, CrawlsOf, SnapshotOf, BuildCall;
      r := Request(net, config, ActivityPath, GET, None, options);
      if r.Err? && Is404(r.error) {
        var legacy := FetchLegacyActivity(options);
        r := if legacy.Ok? then Ok(ItemsJson(legacy.value)) else Err(legacy.error);
      }
    }

    /** `fetchLegacyUsage`: credit usage, then token usage, then the summary filled in by
        successive assignments. */
    method FetchLegacyUsage(options: RequestOptions) returns (r: Result<JsonObject, Failure>)
      modifies net
      ensures r == LegacyUsageRun(config, net.respond, options).result
      ensures net.calls == old(net.calls) + LegacyUsageRun(config, net.respond, options).trace
    {
      hide Classify, Get, OrNull, Truthy, UsageSummaryOf;
      var creditResult: Option<Json> := None;
      var credit := Request(net, config, CreditUsagePath, GET, None, options);
      if credit.Ok? {
        creditResult := Some(credit.value);
      } else if !Is404(credit.error) {
        r := Err(credit.error);
        return;
      }
      var tokenResult: Option<Json> := None;
      var token := Request(net, config, TokenUsagePath, GET, None, options);
      if token.Ok? {
        tokenResult := Some(token.value);
      } else if !Is404(token.error) {
        r := Err(token.error);
        return;
      }
      assert creditResult == Tolerated(credit) && tokenResult == Tolerated(token);
      r := MergeUsage(creditResult, tokenResult);
    }

    /** `usage`: `/v2/usage`, and on a 404 the legacy merge. */
    method Usage(options: RequestOptions) returns (r: Result<Json, Failure>)
      modifies net
      ensures r == UsageRun(config, net.respond, options).result
      ensures net.calls == old(net.calls) + UsageRun(config, net.respond, options).trace
    {
      hide Classify, LegacyUsageRun;
      r := Request(net, config, UsagePath, GET, None, options);
      if r.Err? && Is404(r.error) {
        var legacy := FetchLegacyUsage(options);
        r := if legacy.Ok? then Ok(JObject(legacy.value)) else Err(legacy.error);
      }
    }

    /** `scrape`: one POST of the payload to `/v2/scrape`. */
    method Scrape(payload: Json, options: RequestOptions) returns (r: Result<Json, Failure>)
      modifies net
      ensures net.calls == old(net.calls) + [BuildCall(config, ScrapePath, POST, Some(payload), options)]
      ensures r == Classify(net.respond(BuildCall(config, ScrapePath, POST, Some(payload), options)))
    {
      r := Request(net, config, ScrapePath, POST, Some(payload), options);
    }

    /** `search`: one POST of the payload to `/v2/search`. */
    method Search(payload: Json, options: RequestOptions) returns (r: Result<Json, Failure>)
      modifies net
      ensures net.calls == old(net.calls) + [BuildCall(config, SearchPath, POST, Some(payload), options)]
      ensures r == Classify(net.respond(BuildCall(config, SearchPath, POST, Some(payload), options)))
    {
      r := Request(net, config, SearchPath, POST, Some(payload), options);
    }

    /** `crawl`: one POST of the payload to `/v2/crawl`. */
    method Crawl(payload: Json, options: RequestOptions) returns (r: Result<Json, Failure>)
      modifies net
      ensures net.calls == old(net.calls) + [BuildCall(config, CrawlPath, POST, Some(payload), options)]
      ensures r == Classify(net.respond(BuildCall(config, CrawlPath, POST, Some(payload), options)))
    {
      r := Request(net, config, CrawlPath, POST, Some(payload), options);
    }

    /** `extract`: one POST of the payload to `/v2/extract`. */
    method Extract(payload: Json, options: RequestOptions) returns (r: Result<Json, Failure>)
      modifies net
      ensures net.calls == old(net.calls) + [BuildCall(config, ExtractPath, POST, Some(payload), options)]
      ensures r == Classify(net.respond(BuildCall(config, ExtractPath, POST, Some(payload), options)))
    {
      r := Request(net, config, ExtractPath, POST, Some(payload), options);
    }

    /** `changelog`: one GET of `/v2/changelog`, with no fallback. */
    method Changelog(options: RequestOptions) returns (r: Result<Json, Failure>)
      modifies net
      ensures net.calls == old(net.calls) + [GetCall(config, ChangelogPath, options)]
      ensures r == Answer(config, net.respond, ChangelogPath, options)
    {
      r := Request(net, config, ChangelogPath, GET, None, options);
    }
  }
}
