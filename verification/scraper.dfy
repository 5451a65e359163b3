/** `WebScraper` construction and its `scrape_website` entry point
    (web_scraper.py), composed from the configuration, the fetch executor
    and the record builder. */
module WebScraper {
  import opened Common
  import opened Configuration
  import opened Fetch
  import opened Records
  import opened Text

  /** The optional constructor arguments; `None` is an omitted argument. */
  datatype Overrides = Overrides(
    delayRange: Option<(real, real)>,
    timeout: Option<int>,
    maxRetries: Option<int>,
    respectRobots: Option<bool>,
    useSelenium: Option<bool>)

  /** The state of a `WebScraper` instance that the model tracks. */
  datatype ScraperState = ScraperState(
    delayRange: (real, real),
    timeout: int,
    maxRetries: int,
    respectRobots: bool,
    useSelenium: bool,
    customUserAgent: Option<string>,
    hasRotator: bool,
    sessionProxies: map<string, string>,
    stats: Stats)

  /** `x or fallback` for an optional integer argument: 0 is falsy. */
  function OrInt(x: Option<int>, fallback: int): int {
    if x.Some? && x.value != 0 then x.value else fallback
  }

  /** `x if x is not None else fallback`. */
  function OrElse<T>(x: Option<T>, fallback: T): T {
    if x.Some? then x.value else fallback
  }

  /** `WebScraper.__init__`. `rotatorImported` says whether the rotator
      package imported, `rotatorInitOk` whether constructing it succeeded,
      and `seleniumSetupOk` whether the browser driver could be started
      (an absent Selenium package fails the same way). */
  function NewScraper(cfg: Config, o: Overrides,
                      rotatorImported: bool, rotatorInitOk: bool, seleniumSetupOk: bool): (s: ScraperState)
    ensures o.timeout.Some? && o.timeout.value != 0 ==> s.timeout == o.timeout.value
    ensures o.timeout.None? || o.timeout == Some(0) ==> s.timeout == cfg.timeout
    ensures o.maxRetries.Some? && o.maxRetries.value != 0 ==> s.maxRetries == o.maxRetries.value
    ensures o.maxRetries.None? || o.maxRetries == Some(0) ==> s.maxRetries == cfg.maxRetries
    ensures s.delayRange == (if o.delayRange.Some? then o.delayRange.value else cfg.delayRange)
    ensures o.respectRobots.Some? ==> s.respectRobots == o.respectRobots.value
    ensures o.respectRobots.None? ==> s.respectRobots == cfg.respectRobots
    ensures s.useSelenium ==> seleniumSetupOk
    ensures seleniumSetupOk ==>
              s.useSelenium == (if o.useSelenium.Some? then o.useSelenium.value else cfg.useSelenium)
    ensures s.hasRotator <==> rotatorImported && rotatorInitOk && !Truthy(cfg.customUserAgent)
    ensures s.customUserAgent == cfg.customUserAgent
    ensures ProxyDict(cfg).None? ==> s.sessionProxies == map[]
    ensures ProxyDict(cfg).Some? ==> s.sessionProxies == ProxyDict(cfg).value
    ensures s.stats == InitialStats && Consistent(s.stats)
  {
    var wantSelenium := OrElse(o.useSelenium, cfg.useSelenium);
    ScraperState(
      delayRange := OrElse(o.delayRange, cfg.delayRange),
      timeout := OrInt(o.timeout, cfg.timeout),
      maxRetries := OrInt(o.maxRetries, cfg.maxRetries),
      respectRobots := OrElse(o.respectRobots, cfg.respectRobots),
      // a failed `_setup_selenium` switches the scraper to static mode
      useSelenium := wantSelenium && seleniumSetupOk,
      customUserAgent := cfg.customUserAgent,
      hasRotator := rotatorImported && !Truthy(cfg.customUserAgent) && rotatorInitOk,
      sessionProxies := match ProxyDict(cfg) case Some(p) => p case None => map[],
      stats := InitialStats)
  }

  /** The two kinds of override behave differently on a falsy value: a zero
      timeout or retry count falls back to the configuration, while `False`
      for a flag is kept. */
  lemma FalsyOverrides(cfg: Config, rotatorImported: bool, rotatorInitOk: bool, seleniumSetupOk: bool)
    ensures var s := NewScraper(cfg, Overrides(None, Some(0), Some(0), Some(false), Some(false)),
                                rotatorImported, rotatorInitOk, seleniumSetupOk);
            s.timeout == cfg.timeout && s.maxRetries == cfg.maxRetries && !s.respectRobots && !s.useSelenium
  {
  }

  /** `WebScraper.scrape_website`. The inputs beyond the URL and selectors
      stand for the outside world: the robots.txt answer, the outcome of
      each HTTP attempt, the page source the browser would return, and the
      parsed page (its title and the evaluation of each selector). */
  method ScrapeWebsite(s: ScraperState, url: string, selectors: Option<map<string, string>>,
                       robots: RobotsAnswer, outcome: nat -> AttemptOutcome, rendered: Option<string>,
                       title: Option<string>, select: string -> SelectResult, scrapedAt: string)
    returns (rec: Record, s': ScraperState)
    ensures s' == s.(stats := s'.stats)
    ensures !CheckRobots(s.respectRobots, robots).allowed ==> rec == map[] && s' == s
    ensures s.useSelenium ==> s'.stats == s.stats
    ensures s.useSelenium && CheckRobots(s.respectRobots, robots).allowed ==>
              (rec == map[] <==> !Truthy(rendered))
    ensures Consistent(s.stats) ==> Consistent(s'.stats)
    ensures s'.stats.requestsMade - s.stats.requestsMade
            == (s'.stats.successfulRequests - s.stats.successfulRequests)
               + (s'.stats.failedRequests - s.stats.failedRequests)
    ensures !s.useSelenium && rec != map[] ==> s'.stats.successfulRequests == s.stats.successfulRequests + 1
    ensures !s.useSelenium && CheckRobots(s.respectRobots, robots).allowed && s.maxRetries <= 0 ==>
              rec == map[] && s' == s
    ensures !s.useSelenium && CheckRobots(s.respectRobots, robots).allowed
            && s.maxRetries > 0 && FailsBefore(outcome, s.maxRetries) ==>
              && rec == map[]
              && s'.stats == Stats(s.stats.requestsMade + s.maxRetries, s.stats.successfulRequests,
                                   s.stats.failedRequests + s.maxRetries)
    ensures !s.useSelenium && CheckRobots(s.respectRobots, robots).allowed ==>
              forall k: nat :: k < s.maxRetries && FirstOkAt(outcome, k) ==>
                && (rec == map[] <==> outcome(k).text == "")
                && s'.stats == Stats(s.stats.requestsMade + k + 1, s.stats.successfulRequests + 1,
                                     s.stats.failedRequests + k)
    ensures rec == map[] || rec.Keys == SelectorKeys(selectors) + {MetadataKey}
    ensures rec != map[] ==> rec[MetadataKey] == Metadata(url, scrapedAt, title, "success")
    ensures rec != map[] ==> forall k :: k in rec && k != MetadataKey ==>
              selectors.Some? && k in selectors.value && rec[k] == ShapeField(select(selectors.value[k]))
  {
    s' := s;
    if !CheckRobots(s.respectRobots, robots).allowed {
      return map[], s';
    }
    var content: Option<string>;
    if s.useSelenium {
      content := rendered;
    } else {
      assert IsSupportedMethod("GET") by { assert Upper("GET") == "GET"; }
      var response, stats', _ := MakeRequest(s.maxRetries, "GET", outcome, s.stats);
      s' := s.(stats := stats');
      content := if response.Response? then Some(response.text) else None;
    }
    rec := BuildRecord(url, selectors, content, title, select, scrapedAt);
  }

  /** `_get_user_agent` on a constructed scraper: a truthy configured agent
      suppresses the rotator and is sent with every request, whatever the
      rotator would have drawn. */
  lemma ConfiguredAgentAlwaysSent(cfg: Config, o: Overrides, rotatorImported: bool, rotatorInitOk: bool,
                                  seleniumSetupOk: bool, draw: Option<string>)
    requires Truthy(cfg.customUserAgent)
    ensures var s := NewScraper(cfg, o, rotatorImported, rotatorInitOk, seleniumSetupOk);
            && !s.hasRotator
            && UserAgent(s.customUserAgent, s.hasRotator, draw) == cfg.customUserAgent.value
  {
  }

  /** Without a configured agent, a scraper whose rotator could not be set up
      always sends the fixed default agent. */
  lemma NoRotatorSendsDefault(cfg: Config, o: Overrides, rotatorImported: bool, rotatorInitOk: bool,
                              seleniumSetupOk: bool, draw: Option<string>)
    requires !Truthy(cfg.customUserAgent) && !(rotatorImported && rotatorInitOk)
    ensures var s := NewScraper(cfg, o, rotatorImported, rotatorInitOk, seleniumSetupOk);
            UserAgent(s.customUserAgent, s.hasRotator, draw) == DefaultUserAgent
  {
  }

  /** When SELECTORS does not decode, a page with content yields exactly the
      three default fields and the metadata. */
  lemma UndecodableSelectorsGiveDefaultFields(env: Env, decode: string -> JsonResult, url: string,
                                              content: Option<string>, title: Option<string>,
                                              select: string -> SelectResult, scrapedAt: string)
    requires decode(GetEnv(env, "SELECTORS", "{}")).JsonDecodeError?
    requires Truthy(content)
    ensures var rec := BuildRecord(url, Some(ParseSelectors(env, decode)), content, title, select, scrapedAt);
            && rec.Keys == {"title", "description", "links", MetadataKey}
            && rec["title"] == ShapeField(select("h1"))
            && rec["description"] == ShapeField(select("meta[name=\"description\"]"))
            && rec["links"] == ShapeField(select("a[href]"))
  {
  }
}
