# firecrawl-gui client core, modelled in Dafny

This project models the part of firecrawl-gui that talks to a Firecrawl server, and proves
properties of that model. firecrawl-gui is a web console for a self-hosted or cloud Firecrawl
server. The model covers three pieces.

- **The adaptive API client** (`createFirecrawlClient`). Module `Transport` models `request`:
  the URL, the headers, the JSON body, the timer and how a settled `fetch` becomes a value or a
  thrown error. Module `Prober` holds reference functions for the operations that fall back to
  legacy endpoints, together with the lemmas about them:
  - `health` tries `/v2/health`, then `/is-production`, `/test` and `/`;
  - `activity` tries `/v2/activity`, then merges `/v1/crawl/active` with `/v1/team/queue-status`;
  - `usage` tries `/v2/usage`, then merges `/v1/team/credit-usage` with `/v1/team/token-usage`.

  Module `Client` is the client object. It is a class over an injected `Network`, which answers
  each `fetch` call with a fixed function of the call and records every call in order. Each
  method is proved to make exactly the requests, and to return exactly the result, that the
  matching reference function describes. The probe loop, the crawl push loop and the usage
  summary assignments are kept as loops and updates.
- **The changelog normaliser** (`normaliseEntries` on the What's new page), in module
  `WhatsNew`.
- **The playground payload builders**, in module `Playground`. `Number(text)` is a parameter
  there. `parsePositiveInt` is modelled on its result, using `real.Floor`.

Modules `Base`, `Js` and `Text` supply `Option`/`Result`, the JavaScript value model
(property access, `??`, truthiness) and the string built-ins the code relies on (`trim`, the
`/\/$/` replacement, number-to-string, `join`). Module `Domain` holds the record shapes.

## Model

| member | source | states |
|---|---|---|
| Text.StripTrailingSlash | src/io/firecrawl-client.ts:59 | one trailing `/` is removed when present; nothing else changes |
| Text.Trim | src/io/firecrawl-client.ts:181 | the result is the infix left after removing leading and trailing whitespace only; it neither starts nor ends with whitespace |
| Transport.SafeConfig | src/io/firecrawl-client.ts:179-182 | the client keeps the base URL without one trailing slash, and the trimmed key only when it is non-blank |
| Transport.EnsureUrlParts | src/io/firecrawl-client.ts:58-61 | the URL ends with the path verbatim, and what precedes it is the base, or the base minus exactly one final `/` when it ends in one |
| Transport.BuildHeaders | src/io/firecrawl-client.ts:47-56 | `Content-Type: application/json` iff POST; `Authorization: Bearer <key>` iff a non-empty key; no other header |
| Transport.TimerOf | src/io/firecrawl-client.ts:133 | no `timeoutMs` arms the 30000 ms default; 0 arms no timer; any other value is used as given |
| Transport.BuildCall | src/io/firecrawl-client.ts:124-145 | the `fetch` call has the joined URL, the method, the headers, the timer, and a body exactly on POST with a payload |
| Transport.ParseJson | src/io/firecrawl-client.ts:111-122 | a body yields a value exactly when it is non-empty JSON, and that value is the parsed JSON unchanged |
| Transport.Request | src/io/firecrawl-client.ts:124-176 | exactly one call is appended to the network log, the one `BuildCall` describes, and the result is its classification |
| Transport.UrlKeepsPathVerbatim | src/io/firecrawl-client.ts:58-61 | a base with up to two trailing slashes, one stripped at construction and one per request, is joined to the path with no slash of its own |
| Transport.ExampleDevHealthUrl | src/io/firecrawl-client.test.ts:20-29 | `https://example.dev/` and `/v2/health` give `https://example.dev/v2/health` |
| Transport.HeaderPolicy | src/io/firecrawl-client.ts:47-56 | for a client's request: JSON content type exactly on POST; bearer header exactly when the trimmed key is non-blank, carrying the trimmed key |
| Transport.BodyPolicy | src/io/firecrawl-client.ts:142-144 | a GET never carries a body; a POST carries exactly its payload |
| Transport.ErrorMessage | src/io/firecrawl-client.ts:169-171 | the error message is the body's `message` converted to text when it is neither `null` nor missing, the string itself when it is a string, and otherwise "Firecrawl request failed with status N" |
| Transport.Classify | src/io/firecrawl-client.ts:146-175 | a settled `fetch` succeeds iff it responded with a 2xx status and its body could be read, and then never with `null`; a rethrown error is exactly an `AbortError` rejection or a failed body read, carrying what was thrown; a `FirecrawlError` from a response carries its status |
| Transport.ClassifyBodyReadFailure | src/io/firecrawl-client.ts:112 | when reading a response body fails, whatever the status, that failure is thrown as it is and never becomes a `FirecrawlError` |
| Transport.ClassifyResponse | src/io/firecrawl-client.ts:166-175 | a response whose body could be read succeeds iff its status is 2xx, and then gives the parsed body, or `{}` for an empty, unparseable or `null` body |
| Transport.ClassifyHttpError | src/io/firecrawl-client.ts:166-173 | a non-2xx response with a readable body throws a `FirecrawlError` with the HTTP status and the parsed body; its message is the body's non-nullish `message` as text (a string kept as it is), and otherwise "Firecrawl request failed with status N" |
| Transport.NotFoundMessage | src/io/firecrawl-client.test.ts:53-67 | a 404 with body `{"message": "Not found"}` throws status 404 with message "Not found" |
| Transport.ClassifyRejection | src/io/firecrawl-client.ts:147-164 | a timeout becomes 408 "Request timed out"; an `AbortError` is rethrown untouched, and only an `AbortError` is; any other rejection becomes status 0 with its message |
| Transport.StatusZeroMeansNoResponse | src/io/firecrawl-client.ts:163 | a `FirecrawlError` with status 0 never comes from a response with a non-zero status |
| Domain.ActivityItem.ToJson | src/domain/firecrawl.ts:86-94 | an item is an object with exactly the activity keys, each holding the item's value for it, `kind` stored under `type` |
| Prober.AttachProbeMetadata | src/io/firecrawl-client.ts:189-205 | the response keeps its keys; its `info` keeps its existing keys, is extended by the extra info, and is tagged with `checkedEndpoint` and `fallback`, which override both |
| Prober.BuildOkResponse | src/io/firecrawl-client.ts:421-434 | `{status: "ok", info}` where `info` has exactly the extra keys, `note`, `checkedEndpoint` and `fallback`; `fallback` is false only for `/v2/health` |
| Prober.ProbeExtra | src/io/firecrawl-client.ts:468-474 | `isProduction` is added only for `/is-production`, and only when the server sent a boolean |
| Prober.ProbeResponse | src/io/firecrawl-client.ts:458-510 | a probe's answer becomes an object with exactly `status: "ok"` and `info` |
| Prober.ProbeResponseTags | src/io/firecrawl-client.ts:476-508 | a probe response is tagged with the probe's path, `fallback: true` and the probe's note |
| Prober.ProbeResponseProduction | src/io/firecrawl-client.ts:468-480 | `info.isProduction` is present iff `/is-production` sent a boolean, equals it, and `info` holds nothing beyond the tags |
| Prober.ProbeChain | src/io/firecrawl-client.ts:512-522 | the loop makes at most one request per probe; a success comes from the probe of the last request made; a failure means every probe was requested; no probes rethrow the first error without a request |
| Prober.ProbeChainHit | src/io/firecrawl-client.ts:512-516 | the probes are requested strictly in order up to the first that answers, and that probe's response is returned |
| Prober.ProbeChainMiss | src/io/firecrawl-client.ts:512-522 | when no probe answers, every probe has been requested in order and the last probe's error is thrown |
| Prober.HealthRun | src/io/firecrawl-client.ts:437-523 | `/v2/health` is requested first; further requests are made iff it failed with an error that allows fallback; with one request the result is the tagged success or the error; a failed fallback makes four requests; a success carries `info.fallback` true exactly when probes were used |
| Prober.HealthDirect | src/io/firecrawl-client.ts:437-448 | a `/v2/health` success is returned after exactly one request; the response keeps each of its other keys and values and gains `info`, whose keys are the existing `info` keys plus `checkedEndpoint` and `fallback`, with `checkedEndpoint: "/v2/health"` and `fallback: false` |
| Prober.HealthPropagates | src/io/firecrawl-client.ts:450-456 | a `FirecrawlError` other than 404 or 405 (status 0, 408, 500, ...) from `/v2/health` is thrown as it is, after one request |
| Prober.HealthRunsProbes | src/io/firecrawl-client.ts:450-522 | after a 404, a 405 or a non-`FirecrawlError`, `health` is the `/v2/health` request followed by the probe loop |
| Prober.HealthFallback | src/io/firecrawl-client.ts:450-522 | in fallback, the first answering probe's tagged response is returned after requesting the probes up to it in order; when none answers, all four requests are made and the error of `/` is thrown |
| Prober.HealthExhausted | src/io/firecrawl-client.ts:458-522 | when everything fails, exactly four requests are made, `/v2/health`, `/is-production`, `/test`, `/`, in this order, and the error of `/` is thrown |
| Prober.HealthAllNotFound | src/io/firecrawl-client.ts:450-522 | against a server answering every request with a fresh 404 `{"message": "Not found"}`, `health` makes four requests and throws the 404 "Not found" |
| Prober.HealthReusedResponse | src/io/firecrawl-client.test.ts:53-67 | when one `Response` answers every request, `/v2/health` reads its 404 body and each probe's read of the used body fails; `health` makes four requests and throws that read failure, not the 404 |
| Prober.HealthReadFailureProbes | src/io/firecrawl-client.ts:112 | a `/v2/health` response whose body cannot be read is not a `FirecrawlError`, so the probes start with `/is-production` |
| Prober.ProbesGoOnAfterFirst | src/io/firecrawl-client.ts:512-522 | whatever `/is-production` throws, the loop goes on to request `/test` |
| Prober.HealthAbortDoesNotStopProbes | src/io/firecrawl-client.ts:512-522 | an `AbortError` from `/is-production` is swallowed, and `/test` is still requested |
| Prober.HealthIsProductionScenario | src/io/firecrawl-client.ts:450-481 | after a 404 from `/v2/health`, `/is-production` answering `{isProduction: false}` gives the tagged "ok" response after exactly two requests |
| Prober.ProductionProbeResponse | src/io/firecrawl-client.ts:459-481 | `/is-production` answering `{isProduction: flag}` gives `status: "ok"`, `checkedEndpoint: "/is-production"`, `fallback: true`, `isProduction: flag` |
| Prober.CrawlsOf | src/io/firecrawl-client.ts:220-236 | the crawls are the listing's `crawls` array when the request succeeded, was not `success: false` and `crawls` is an array, and none otherwise |
| Prober.SnapshotOf | src/io/firecrawl-client.ts:247-265 | a queue snapshot is kept iff the request succeeded, the answer is not `success: false` and it is truthy, and then it is the answer unchanged |
| Prober.CrawlItem | src/io/firecrawl-client.ts:273-287 | `id` equals `jobId` and is the crawl's `id` when present; `type: "crawl"`, `status: "active"`, `source: "v1/crawl/active"`, `url` is the crawl's `url` or `null`; with no update time, `updatedAt` is the creation time |
| Prober.CountOf | src/io/firecrawl-client.ts:290-294 | a queue count is kept iff it is a number, unchanged |
| Prober.QueueItem | src/io/firecrawl-client.ts:289-313 | the queue item has id `queue-status`, `jobId: null`, `type: "queue"`, the status text of the numeric counts, and both times equal to `mostRecentSuccess` or `null` |
| Prober.QueueStatus | src/io/firecrawl-client.ts:290-307 | the numeric counts as "A active" and "W waiting" joined by " / ", or "snapshot" exactly when neither count is numeric |
| Prober.LegacyActivityRun | src/io/firecrawl-client.ts:217-316 | a non-404 error from the crawl listing is thrown after that one request; otherwise both requests are made, a non-404 queue error is thrown, and else the result is the items built from the crawls and the snapshot |
| Prober.ActivityRun | src/io/firecrawl-client.ts:557-573 | anything but a 404 from `/v2/activity` is returned after that request; a 404 is followed by the legacy requests, whose error or items (as a JSON array) are the result |
| Prober.LegacyActivityItems | src/io/firecrawl-client.ts:267-315 | no crawls and no snapshot give the 404 "Legacy activity endpoints unavailable"; otherwise one item per crawl in order, then at most one queue item; a `null` crawl throws |
| Prober.ItemsJson | src/io/firecrawl-client.ts:557-573 | the items are returned as a JSON array of the same length, element by element |
| Prober.ActivitySwitchesOnlyOn404 | src/io/firecrawl-client.ts:557-573 | only a 404 `FirecrawlError` from `/v2/activity` switches to the legacy endpoints; a success or any other error is returned after that single request |
| Prober.LegacyActivitySequencing | src/io/firecrawl-client.ts:217-268 | the crawl listing is requested first; a non-404 error there is thrown before the queue status is requested; otherwise exactly the two requests are made; two 404s give the "unavailable" 404 |
| Prober.CrawlItemIdentity | src/io/firecrawl-client.ts:273-287 | a crawl item has `id = jobId = id ?? jobId ?? null`, `type: "crawl"`, `status: "active"`, `source: "v1/crawl/active"` |
| Prober.CrawlItemTimestamps | src/io/firecrawl-client.ts:274-285 | `createdAt` is `createdAt ?? created_at ?? null`; `updatedAt` is `updatedAt ?? updated_at`, else the creation time |
| Prober.ActivityMergeScenario | src/io/firecrawl-client.ts:217-315 | one crawl and a snapshot with 1 active and 0 waiting give exactly two items: the crawl, then the queue item "1 active / 0 waiting" |
| Prober.UsageData | src/io/firecrawl-client.ts:382-392 | figures are read iff the answer came back, is not `success: false` and has truthy `data`, and they are read from that `data` |
| Prober.WithCreditFigures | src/io/firecrawl-client.ts:382-398 | the credit step adds exactly the four credit keys |
| Prober.WithTokenFigures | src/io/firecrawl-client.ts:400-416 | the token step adds exactly the four token keys |
| Prober.UsageSummaryShape | src/io/firecrawl-client.ts:369-418 | neither answer present gives the 404 "Legacy usage endpoints unavailable"; otherwise `plan: "self-hosted"`, `source: "v1/team/usage"`, the credit keys iff credit data, the token keys iff token data, nothing else |
| Prober.UsageSummaryFigures | src/io/firecrawl-client.ts:378-416 | each figure is the matching field of the answer's `data`, or `null` when it is missing |
| Prober.UsageSummaryOf | src/io/firecrawl-client.ts:369-418 | the 404 "Legacy usage endpoints unavailable" is thrown iff neither answer is present; otherwise the summary holds `plan` and `source`, the credit keys iff credit data is read, and the token keys iff token data is read |
| Prober.LegacyUsageRun | src/io/firecrawl-client.ts:318-419 | a non-404 error from the credit endpoint is thrown after that one request; otherwise both requests are made, a non-404 token error is thrown, and else the result is the summary of the two answers, a 404 counting as no answer |
| Prober.UsageRun | src/io/firecrawl-client.ts:574-590 | anything but a 404 from `/v2/usage` is returned after that request; a 404 is followed by the legacy requests, whose error or summary is the result |
| Prober.UsageSequencing | src/io/firecrawl-client.ts:318-367 | only a 404 from `/v2/usage` switches to legacy; a non-404 error from the credit endpoint stops before the token endpoint is requested; otherwise the three requests are made in order |
| Prober.UsageScenarioSummary | src/io/firecrawl-client.ts:382-416 | credit and token bodies with remaining and plan figures are summarised with exactly those figures |
| Prober.UsageMergeScenario | src/io/firecrawl-client.ts:318-418 | credit and token answers with remaining and plan figures give a self-hosted summary with exactly those figures |
| Client.PushCrawlItems | src/io/firecrawl-client.ts:271-288 | the push loop yields one item per crawl, in order, and throws a `TypeError` iff some crawl is `null` |
| Client.MergeUsage | src/io/firecrawl-client.ts:369-418 | the summary built by successive key assignments is exactly `Prober.UsageSummaryOf` of the two answers |
| Client.FirecrawlClient.constructor | src/io/firecrawl-client.ts:178-182 | the client keeps the normalised configuration and the network it was given |
| Client.FirecrawlClient.Health | src/io/firecrawl-client.ts:437-523 | the method's requests and result are exactly those of `Prober.HealthRun` |
| Client.FirecrawlClient.RunProbes | src/io/firecrawl-client.ts:512-522 | the probe loop's requests and result are exactly those of `Prober.ProbeChain` |
| Client.FirecrawlClient.FetchLegacyActivity | src/io/firecrawl-client.ts:217-316 | the requests and result are exactly those of `Prober.LegacyActivityRun` |
| Client.FirecrawlClient.Activity | src/io/firecrawl-client.ts:557-573 | the requests and result are exactly those of `Prober.ActivityRun` |
| Client.FirecrawlClient.FetchLegacyUsage | src/io/firecrawl-client.ts:318-419 | the requests and result, including the summary built by successive assignments, are exactly those of `Prober.LegacyUsageRun` |
| Client.FirecrawlClient.Usage | src/io/firecrawl-client.ts:574-590 | the requests and result are exactly those of `Prober.UsageRun` |
| Client.FirecrawlClient.Scrape | src/io/firecrawl-client.ts:525-532 | one POST of the payload to `/v2/scrape` |
| Client.FirecrawlClient.Search | src/io/firecrawl-client.ts:533-540 | one POST of the payload to `/v2/search` |
| Client.FirecrawlClient.Crawl | src/io/firecrawl-client.ts:541-548 | one POST of the payload to `/v2/crawl` |
| Client.FirecrawlClient.Extract | src/io/firecrawl-client.ts:549-556 | one POST of the payload to `/v2/extract` |
| Client.FirecrawlClient.Changelog | src/io/firecrawl-client.ts:591-598 | one GET of `/v2/changelog`, with no fallback |
| Js.ToText | src/io/firecrawl-client.ts:169-173 | a value becomes the text JavaScript gives it: a string as it is, a number in decimal, `null` as "null", a boolean as "true" or "false", an object as "[object Object]", an array as its elements' texts joined by `,` |
| Js.ElementTexts | src/io/firecrawl-client.ts:169-173 | an array's elements become one text each, in order: `""` for `null`, the element's own text otherwise |
| Js.ArrayText | src/io/firecrawl-client.ts:169-173 | a `message` of `["a", "b"]` gives the text "a,b", and `[null, 7]` gives ",7" |
| Text.NatToDecimalValue | src/io/firecrawl-client.ts:171 | the decimal digits written for a number read back as that number |
| Text.IntToStringValue | src/io/firecrawl-client.ts:297-300 | `${n}` denotes `n`: its digits give `n`, after a minus sign exactly when `n` is negative |
| WhatsNew.FlattenEntry | src/app/whats-new/page.tsx:21-27 | `version` and `date` are kept iff they are strings, unchanged; the items are exactly the strings among `entries` when it is an array |
| WhatsNew.StringsOf | src/app/whats-new/page.tsx:24-26 | the filter keeps exactly the strings, never lengthens the list, and keeps an all-string list whole |
| WhatsNew.StringsOfCons | src/app/whats-new/page.tsx:24-26 | filtering a list keeps its head exactly when it is a string, in front of the filtered rest |
| WhatsNew.StringsOfAppend | src/app/whats-new/page.tsx:24-26 | filtering distributes over concatenation, so the strings keep their order |
| WhatsNew.StringsOfAllStrings | src/app/whats-new/page.tsx:24-26 | an all-string list is kept element by element |
| WhatsNew.StringMember | src/app/whats-new/page.tsx:22-23 | a member is kept iff it is a string, and then unchanged |
| WhatsNew.LinesOf | src/app/whats-new/page.tsx:24-26 | the lines are exactly the strings of `entries` when it is an array, and none otherwise |
| WhatsNew.FlattenAll | src/app/whats-new/page.tsx:20-28 | one record per element, in order; a `null` element throws a `TypeError`, and only then |
| WhatsNew.NormaliseEntries | src/app/whats-new/page.tsx:14-39 | undefined or a falsy response gives `[]`; only an array with a `null` element throws; an array gives one record per element; any other response gives at most one record |
| WhatsNew.NormaliseArray | src/app/whats-new/page.tsx:20-28 | an array gives one record per element in order: `version` and `date` kept iff strings, `items` the string lines of `entries`, or `[]` when it is not an array |
| WhatsNew.NormaliseEntriesObject | src/app/whats-new/page.tsx:29-36 | an object with an `entries` array gives a single record without version or date, holding the string lines |
| WhatsNew.NormaliseOtherObject | src/app/whats-new/page.tsx:38 | any other object gives `[]` |
| Playground.ParsePositiveInt | src/app/playground/page.tsx:119-125 | nothing iff the number is NaN, infinite or at most 0; otherwise the largest integer not above it, which is at least 0 |
| Playground.ParsePositiveIntZero | src/app/playground/page.tsx:119-125 | the result is 0 exactly for values strictly between 0 and 1, and at least 1 exactly for values from 1 up |
| Playground.BuildScrapePayload | src/app/playground/page.tsx:127-133 | trimmed URL, `formats: [format]`, `waitFor` absent iff the field is empty, `mobile` true or absent and never false, no other key |
| Playground.BuildSearchPayload | src/app/playground/page.tsx:135-145 | trimmed query, parsed limit, `lang` the trimmed language and absent iff blank, `scrapeOptions` present iff scraping results, carrying `[format]` and `onlyMainContent` |
| Playground.MapPayloadOf | src/app/playground/page.tsx:147-165 | trimmed URL and sitemap always; `limit` iff the parse gives a value; each switch present only when on, and then true |
| Playground.BuildMapPayload | src/app/playground/page.tsx:147-165 | the conditional assignments build exactly `MapPayloadOf` |
| Playground.BuildCrawlPayload | src/app/playground/page.tsx:167-174 | the URL is trimmed and neither starts nor ends with whitespace; `limit` and `maxDepth` are absent iff the number is not finite or not positive, and otherwise the non-negative integer part of it; the flags are passed through, `deduplicate` under `deduplicateSimilarURLs` |
| Playground.ScrapeStable | src/app/playground/page.tsx:127-133 | the scrape payload's URL is already trimmed: building again from it gives the same payload |
| Playground.SearchStable | src/app/playground/page.tsx:135-145 | the search payload's query is already trimmed: building again from it gives the same payload |
| Playground.MapStable | src/app/playground/page.tsx:147-165 | the map payload's URL is already trimmed: building again from it gives the same payload |
| Playground.CrawlStable | src/app/playground/page.tsx:167-174 | the crawl payload's URL is already trimmed: building again from it gives the same payload |

## Findings

| source | as written | input that shows it | evidently intended | confidence | as-written member | corrected member |
|---|---|---|---|---|---|---|
| src/io/firecrawl-client.test.ts:53-67 | `mockResolvedValue` hands the same `Response` object to all four `fetch` calls of `health`; its body can be read once, and the later reads reject outside the `try` of `request` | the test's own fixture: 404 `{"message": "Not found"}` for `/v2/health`, then a failed body read for `/is-production`, `/test` and `/` | a fresh 404 `Response` per call, so `health` rejects with status 404 and message "Not found" | medium, not executed | Prober.HealthReusedResponse | Prober.HealthAllNotFound |

## Left out

- `withTimeout` (timers, `AbortController`, event listeners): only its observable effect is
  modelled. The armed deadline is recorded in the call, and the `TimeoutError` or `AbortError`
  rejection is an outcome the injected network reports. The caller's `signal` is not part of a
  call.
- `fetch`, `Headers`, `Response.text` and `JSON.parse`: the network is an injected function from
  the call to its outcome, so each answer depends on the call alone. A response body is given
  already read and parsed: empty, malformed, a JSON value, or a read that failed with a thrown
  value. A failed read is thrown as it is, since `response.text()` is awaited outside any
  `try`.
- `JSON.stringify` of payloads: the facade methods take the payload as a JSON value, so the
  playground's payload records are not converted to the JSON a request carries.
- JSON numbers are integers. Fractional and out-of-range numbers, and the exact text JavaScript
  prints for them, are not modelled.
- Spreading a non-object `info` or response (an array or a string) is simplified to "no keys".
- Key order in objects: objects are maps.
- `console.warn` in the legacy paths: logging only.
- Prober.HealthRun: its own contract states only the shape of the run (which requests, when
  fallback happens, the `fallback` tag). The response of each probe is stated by
  `Prober.HealthFallback` and `Prober.HealthDirect`, which keeps each proof small.
- Prober.ProbeChain: its own contract bounds the requests and names the answering probe. The
  exact requests and result are stated by `Prober.ProbeChainHit` and `Prober.ProbeChainMiss`.
- The `TypeError` thrown when a `null` crawl or changelog entry is read is modelled with a fixed
  message. The engine's exact wording is not modelled.
- `Number(text)`: the numeral parser is a parameter of the builders.
- `SitemapMode` is not declared in `src/domain/firecrawl.ts`. It is modelled from the three
  choices the map form offers.
- `client.map`: the playground calls a map operation the client does not define. No map request
  is modelled.
- The rest of the repository is not part of this model: the polling hook, local configuration
  storage and URL validation, and all rendering code.
