/** The playground's payload builders: each form's state turned into the request payload for
    scrape, search, map and crawl. `Number(text)` is a parameter (`number`), since the model
    does not parse numerals; what the builders do with its result is modelled exactly. */
module Playground {
  import opened Base
  import opened Text
  import opened Domain

  /** `ScrapeFormState`. */
  datatype ScrapeForm = ScrapeForm(url: string, format: Format, onlyMainContent: bool, waitFor: string, mobile: bool)

  /** `SearchFormState`. */
  datatype SearchForm = SearchForm(
    query: string, limit: string, lang: string, scrapeResults: bool, format: Format, onlyMainContent: bool)

  /** `SitemapMode`: the three choices of the map form. */
  datatype SitemapMode = Include | Only | Exclude

  /** `MapFormState`. */
  datatype MapForm = MapForm(
    url: string, limit: string, sitemap: SitemapMode, includeSubdomains: bool, ignoreQueryParameters: bool)

  /** `CrawlFormState`. */
  datatype CrawlForm = CrawlForm(
    url: string, limit: string, maxDepth: string, deduplicate: bool, includeSubdomains: bool, allowExternalLinks: bool)

  /** `MapPayload`; `None` is an absent key. */
  datatype MapPayload = MapPayload(
    url: string, limit: Option<int>, sitemap: SitemapMode, includeSubdomains: Option<bool>,
    ignoreQueryParameters: Option<bool>)

  /** `parsePositiveInt` applied to `Number(value)`: nothing for NaN, the infinities and
      values up to zero, otherwise the largest integer not above the value. */
  function ParsePositiveInt(parsed: JsNumber): (r: Option<int>)
    ensures r.None? <==> !parsed.Finite? || parsed.r <= 0.0
    ensures r.Some? ==> 0 <= r.value && r.value as real <= parsed.r < r.value as real + 1.0
  {
    if !parsed.Finite? || parsed.r <= 0.0 then None else Some(parsed.r.Floor)
  }

  /** The result is positive exactly when the value is at least one: values strictly between
      zero and one are turned into `0`, which the builders then send as a limit. */
  lemma ParsePositiveIntZero(parsed: JsNumber)
    ensures ParsePositiveInt(parsed).Some? && ParsePositiveInt(parsed).value == 0
      <==> parsed.Finite? && 0.0 < parsed.r < 1.0
    ensures ParsePositiveInt(parsed).Some? && ParsePositiveInt(parsed).value >= 1
      <==> parsed.Finite? && parsed.r >= 1.0
  {
  }

  /** `buildScrapePayload`. */
  function BuildScrapePayload(state: ScrapeForm, number: string -> JsNumber): (p: ScrapePayload)
    ensures p.url == Trim(state.url)
    ensures p.formats == Some([state.format])
    ensures p.onlyMainContent == Some(state.onlyMainContent)
    ensures p.waitFor.None? <==> state.waitFor == ""
    ensures p.waitFor.Some? ==> p.waitFor.value == number(state.waitFor)
    ensures p.mobile != Some(false) && (p.mobile.Some? <==> state.mobile)
    ensures p.timeout.None? && p.includeTags.None? && p.excludeTags.None? && p.skipTlsVerification.None?
  {
    ScrapePayload(
      Trim(state.url), Some([state.format]), Some(state.onlyMainContent),
      if state.waitFor != "" then Some(number(state.waitFor)) else None,
      None,
      if state.mobile then Some(true) else None,
      None, None, None)
  }

  /** `buildSearchPayload`. */
  function BuildSearchPayload(state: SearchForm, number: string -> JsNumber): (p: SearchPayload)
    ensures p.query == Trim(state.query)
    ensures p.limit == ParsePositiveInt(number(state.limit))
    ensures p.lang.None? <==> forall k :: 0 <= k < |state.lang| ==> IsWhitespace(state.lang[k])
    ensures p.lang.Some? ==> p.lang.value == Trim(state.lang) && p.lang.value != []
    ensures p.country.None?
    ensures p.scrapeOptions.Some? <==> state.scrapeResults
    ensures p.scrapeOptions.Some? ==>
      p.scrapeOptions.value == ScrapeOptions(Some([state.format]), Some(state.onlyMainContent))
  {
    TrimEmptyIffBlank(state.lang);
    var lang := Trim(state.lang);
    SearchPayload(
      Trim(state.query), ParsePositiveInt(number(state.limit)),
      if lang != "" then Some(lang) else None,
      None,
      if state.scrapeResults then Some(ScrapeOptions(Some([state.format]), Some(state.onlyMainContent))) else None)
  }

  /** The map payload `buildMapPayload` returns: the trimmed URL and the sitemap mode always,
      `limit` only when the parse gives a value, and the two switches only when they are on. */
  function MapPayloadOf(state: MapForm, number: string -> JsNumber): (p: MapPayload)
    ensures p.url == Trim(state.url) && p.sitemap == state.sitemap
    ensures p.limit == ParsePositiveInt(number(state.limit))
    ensures p.includeSubdomains != Some(false) && (p.includeSubdomains.Some? <==> state.includeSubdomains)
    ensures p.ignoreQueryParameters != Some(false)
      && (p.ignoreQueryParameters.Some? <==> state.ignoreQueryParameters)
  {
    MapPayload(
      Trim(state.url), ParsePositiveInt(number(state.limit)), state.sitemap,
      if state.includeSubdomains then Some(true) else None,
      if state.ignoreQueryParameters then Some(true) else None)
  }

  /** `buildMapPayload`: starts from the URL and the sitemap mode and adds the optional keys
      one by one. */
  method BuildMapPayload(state: MapForm, number: string -> JsNumber) returns (payload: MapPayload)
    ensures payload == MapPayloadOf(state, number)
  {
    var limit := ParsePositiveInt(number(state.limit));
    payload := MapPayload(Trim(state.url), None, state.sitemap, None, None);
    if limit.Some? {
      payload := payload.(limit := limit);
    }
    if state.includeSubdomains {
      payload := payload.(includeSubdomains := Some(true));
    }
    if state.ignoreQueryParameters {
      payload := payload.(ignoreQueryParameters := Some(true));
    }
  }

  /** `buildCrawlPayload`: the URL without surrounding whitespace; `limit` and `maxDepth` only
      for a finite, positive `Number(...)`, then as its integer part; the three switches always. */
  function BuildCrawlPayload(state: CrawlForm, number: string -> JsNumber): (p: CrawlPayload)
    ensures p.url == Trim(state.url)
    ensures p.url == [] || (!IsWhitespace(p.url[0]) && !IsWhitespace(p.url[|p.url| - 1]))
    ensures p.limit.None? <==> !number(state.limit).Finite? || number(state.limit).r <= 0.0
    ensures p.limit.Some? ==>
      0 <= p.limit.value && p.limit.value as real <= number(state.limit).r < p.limit.value as real + 1.0
    ensures p.maxDepth.None? <==> !number(state.maxDepth).Finite? || number(state.maxDepth).r <= 0.0
    ensures p.maxDepth.Some? ==>
      0 <= p.maxDepth.value && p.maxDepth.value as real <= number(state.maxDepth).r < p.maxDepth.value as real + 1.0
    ensures p.allowExternalLinks == Some(state.allowExternalLinks)
    ensures p.deduplicateSimilarURLs == Some(state.deduplicate)
    ensures p.includeSubdomains == Some(state.includeSubdomains)
  {
    CrawlPayload(
      Trim(state.url), ParsePositiveInt(number(state.maxDepth)), ParsePositiveInt(number(state.limit)),
      Some(state.allowExternalLinks), Some(state.deduplicate), Some(state.includeSubdomains))
  }

  /** The builders send trimmed text: feeding a built payload's URL (or query) back into its
      form builds the same payload again. */
  lemma ScrapeStable(state: ScrapeForm, number: string -> JsNumber)
    ensures var p := BuildScrapePayload(state, number); BuildScrapePayload(state.(url := p.url), number) == p
  {
    TrimIdempotent(state.url);
  }

  lemma SearchStable(state: SearchForm, number: string -> JsNumber)
    ensures var p := BuildSearchPayload(state, number); BuildSearchPayload(state.(query := p.query), number) == p
  {
    TrimIdempotent(state.query);
  }

  lemma MapStable(state: MapForm, number: string -> JsNumber)
    ensures var p := MapPayloadOf(state, number); MapPayloadOf(state.(url := p.url), number) == p
  {
    TrimIdempotent(state.url);
  }

  lemma CrawlStable(state: CrawlForm, number: string -> JsNumber)
    ensures var p := BuildCrawlPayload(state, number); BuildCrawlPayload(state.(url := p.url), number) == p
  {
    TrimIdempotent(state.url);
  }
}
