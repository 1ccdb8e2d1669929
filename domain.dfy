/** The record shapes the client exchanges with the server. Responses are JSON
    objects whose conventional keys are documented here; the client reads them
    without validating them. */
module Domain {
  import opened Base
  import opened Js

  /** `JsonObject`. `HealthResponse` (`status`, `version`, `uptime`, `info`),
      `UsageSummary` (`plan`, `creditsRemaining`, `creditsUsed`, `period`, ...) and
      `ChangelogEntry` (`version`, `date`, `entries`) are JSON objects of this kind. */
  type JsonObject = map<string, Json>

  /** `ActivityItem` as the client synthesises it from the legacy endpoints:
      every key is set (to `null` when unknown), and `source` records the endpoint. */
  datatype ActivityItem = ActivityItem(
    id: Json, jobId: Json, kind: Json, status: Json, url: Json,
    createdAt: Json, updatedAt: Json, source: Json)
  {
    /** The item as a JSON object, `kind` under the key `type`. */
    function ToJson(): (j: Json)
      ensures j.JObject? && j.fields.Keys == {"id", "jobId", "type", "status", "url", "createdAt", "updatedAt", "source"}
      ensures j.fields["id"] == id && j.fields["jobId"] == jobId && j.fields["type"] == kind
      ensures j.fields["status"] == status && j.fields["url"] == url && j.fields["source"] == source
      ensures j.fields["createdAt"] == createdAt && j.fields["updatedAt"] == updatedAt
    {
      JObject(map[
        "id" := id, "jobId" := jobId, "type" := kind, "status" := status, "url" := url,
        "createdAt" := createdAt, "updatedAt" := updatedAt, "source" := source])
    }
  }

  /** `FirecrawlFormat`. */
  datatype Format = Markdown | Html | JsonFormat | Raw

  /** A JavaScript number as `Number(text)` produces it. */
  datatype JsNumber = Finite(r: real) | NaN | PositiveInfinity | NegativeInfinity

  /** `ScrapePayload`. */
  datatype ScrapePayload = ScrapePayload(
    url: string, formats: Option<seq<Format>>, onlyMainContent: Option<bool>,
    waitFor: Option<JsNumber>, timeout: Option<JsNumber>, mobile: Option<bool>,
    includeTags: Option<seq<string>>, excludeTags: Option<seq<string>>,
    skipTlsVerification: Option<bool>)

  /** `Pick<ScrapePayload, "formats" | "onlyMainContent">`. */
  datatype ScrapeOptions = ScrapeOptions(formats: Option<seq<Format>>, onlyMainContent: Option<bool>)

  /** `SearchPayload`. */
  datatype SearchPayload = SearchPayload(
    query: string, limit: Option<int>, lang: Option<string>, country: Option<string>,
    scrapeOptions: Option<ScrapeOptions>)

  /** `CrawlPayload`. */
  datatype CrawlPayload = CrawlPayload(
    url: string, maxDepth: Option<int>, limit: Option<int>, allowExternalLinks: Option<bool>,
    deduplicateSimilarURLs: Option<bool>, includeSubdomains: Option<bool>)
}
