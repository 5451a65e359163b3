/** The scraper's configuration, derived from the process environment
    (config.py). The environment is a map from variable names to values;
    JSON decoding and number parsing are supplied by the caller. */
module Configuration {
  import opened Common
  import opened Text

  type Env = map<string, string>

  /** What `json.loads` makes of the SELECTORS value: an object mapping
      field names to selectors, or a decode error. */
  datatype JsonResult = JsonObject(fields: map<string, string>) | JsonDecodeError

  datatype Config = Config(
    targetUrl: string,
    selectors: map<string, string>,
    delayRange: (real, real),
    timeout: int,
    maxRetries: int,
    respectRobots: bool,
    useSelenium: bool,
    outputJson: string,
    outputCsv: string,
    customUserAgent: Option<string>,
    httpProxy: Option<string>,
    httpsProxy: Option<string>,
    chromeDriverPath: Option<string>,
    seleniumHeadless: bool,
    seleniumWindowSize: string,
    logLevel: string,
    logFile: string)

  /** `float(...)` or `int(...)` raised on the value of the named variable. */
  datatype ConfigError = InvalidNumber(variable: string)

  datatype LoadResult = Loaded(config: Config) | LoadFailed(error: ConfigError)

  /** `os.getenv(name, default)`. */
  function GetEnv(env: Env, name: string, default: string): string {
    if name in env then env[name] else default
  }

  /** `os.getenv(name)` without a default. */
  function GetOptEnv(env: Env, name: string): Option<string> {
    if name in env then Some(env[name]) else None
  }

  /** A boolean setting: `os.getenv(name, default).lower() == 'true'`. */
  function ParseFlag(env: Env, name: string, default: string): (b: bool)
    ensures b <==> SpellsTrue(GetEnv(env, name, default))
    ensures name !in env ==> (b <==> SpellsTrue(default))
  {
    LowerIsTrueIff(GetEnv(env, name, default));
    Lower(GetEnv(env, name, default)) == "true"
  }

  /** A numeric setting: the literal default when the variable is unset,
      otherwise whatever `parse` makes of its value (`None` when the
      conversion raises). */
  function ParseNumber<T>(env: Env, name: string, default: T, parse: string -> Option<T>): (r: Option<T>)
    ensures name !in env ==> r == Some(default)
    ensures name in env ==> r == parse(env[name])
  {
    if name in env then parse(env[name]) else Some(default)
  }

  /** The selectors used when SELECTORS is not valid JSON. */
  const DefaultSelectors: map<string, string> :=
    map["title" := "h1", "description" := "meta[name=\"description\"]", "links" := "a[href]"]

  /** `Config._parse_selectors`: decode SELECTORS (default "{}"), falling
      back to the three default selectors on a decode error. */
  function ParseSelectors(env: Env, decode: string -> JsonResult): (sel: map<string, string>)
    ensures decode(GetEnv(env, "SELECTORS", "{}")).JsonObject? ==>
              sel == decode(GetEnv(env, "SELECTORS", "{}")).fields
    ensures decode(GetEnv(env, "SELECTORS", "{}")).JsonDecodeError? ==>
              && sel.Keys == {"title", "description", "links"}
              && sel["title"] == "h1"
              && sel["description"] == "meta[name=\"description\"]"
              && sel["links"] == "a[href]"
    ensures "SELECTORS" !in env && decode("{}") == JsonObject(map[]) ==> sel == map[]
  {
    match decode(GetEnv(env, "SELECTORS", "{}"))
    case JsonObject(fields) => fields
    case JsonDecodeError => DefaultSelectors
  }

  /** Every numeric variable that is set parses. */
  ghost predicate NumbersParse(env: Env, parseReal: string -> Option<real>, parseInt: string -> Option<int>) {
    && ("DELAY_MIN" in env ==> parseReal(env["DELAY_MIN"]).Some?)
    && ("DELAY_MAX" in env ==> parseReal(env["DELAY_MAX"]).Some?)
    && ("TIMEOUT" in env ==> parseInt(env["TIMEOUT"]).Some?)
    && ("MAX_RETRIES" in env ==> parseInt(env["MAX_RETRIES"]).Some?)
  }

  /** The four numeric settings of `Config.__init__`. */
  datatype Numbers = Numbers(delayMin: real, delayMax: real, timeout: int, maxRetries: int)

  datatype NumbersResult = Parsed(numbers: Numbers) | NumberError(variable: string)

  /** The variable `Config.__init__` raises on: the first numeric setting,
      in the order it converts them, that is set but does not parse. */
  ghost predicate FirstBadNumber(env: Env, parseReal: string -> Option<real>, parseInt: string -> Option<int>,
                                 variable: string) {
    && variable in env
    && (variable == "DELAY_MIN" ==> parseReal(env["DELAY_MIN"]).None?)
    && (variable == "DELAY_MAX" ==>
          && parseReal(env["DELAY_MAX"]).None?
          && ("DELAY_MIN" in env ==> parseReal(env["DELAY_MIN"]).Some?))
    && (variable == "TIMEOUT" ==>
          && parseInt(env["TIMEOUT"]).None?
          && ("DELAY_MIN" in env ==> parseReal(env["DELAY_MIN"]).Some?)
          && ("DELAY_MAX" in env ==> parseReal(env["DELAY_MAX"]).Some?))
    && (variable == "MAX_RETRIES" ==>
          && parseInt(env["MAX_RETRIES"]).None?
          && ("DELAY_MIN" in env ==> parseReal(env["DELAY_MIN"]).Some?)
          && ("DELAY_MAX" in env ==> parseReal(env["DELAY_MAX"]).Some?)
          && ("TIMEOUT" in env ==> parseInt(env["TIMEOUT"]).Some?))
  }

  /** The numeric settings of `Config.__init__`: converted in the order
      DELAY_MIN, DELAY_MAX, TIMEOUT, MAX_RETRIES, the first conversion that
      raises aborting construction. */
  function ParseNumbers(env: Env, parseReal: string -> Option<real>, parseInt: string -> Option<int>): (r: NumbersResult)
    ensures r.Parsed? <==> NumbersParse(env, parseReal, parseInt)
    ensures r.NumberError? ==>
              && r.variable in {"DELAY_MIN", "DELAY_MAX", "TIMEOUT", "MAX_RETRIES"}
              && FirstBadNumber(env, parseReal, parseInt, r.variable)
    ensures r.Parsed? ==>
              && ("DELAY_MIN" !in env ==> r.numbers.delayMin == 2.0)
              && ("DELAY_MAX" !in env ==> r.numbers.delayMax == 4.0)
              && ("TIMEOUT" !in env ==> r.numbers.timeout == 30)
              && ("MAX_RETRIES" !in env ==> r.numbers.maxRetries == 3)
    ensures r.Parsed? ==>
              && ("DELAY_MIN" in env ==> r.numbers.delayMin == parseReal(env["DELAY_MIN"]).value)
              && ("DELAY_MAX" in env ==> r.numbers.delayMax == parseReal(env["DELAY_MAX"]).value)
              && ("TIMEOUT" in env ==> r.numbers.timeout == parseInt(env["TIMEOUT"]).value)
              && ("MAX_RETRIES" in env ==> r.numbers.maxRetries == parseInt(env["MAX_RETRIES"]).value)
  {
    match ParseNumber(env, "DELAY_MIN", 2.0, parseReal)
    case None => NumberError("DELAY_MIN")
    case Some(delayMin) =>
      match ParseNumber(env, "DELAY_MAX", 4.0, parseReal)
      case None => NumberError("DELAY_MAX")
      case Some(delayMax) =>
        match ParseNumber(env, "TIMEOUT", 30, parseInt)
        case None => NumberError("TIMEOUT")
        case Some(timeout) =>
          match ParseNumber(env, "MAX_RETRIES", 3, parseInt)
          case None => NumberError("MAX_RETRIES")
          case Some(maxRetries) => Parsed(Numbers(delayMin, delayMax, timeout, maxRetries))
  }

  /** A bad TIMEOUT is the variable reported when the delays before it
      parse, even if MAX_RETRIES is bad as well. */
  lemma BadTimeoutIsReported(env: Env, parseReal: string -> Option<real>, parseInt: string -> Option<int>)
    requires "TIMEOUT" in env && parseInt(env["TIMEOUT"]).None?
    requires "DELAY_MIN" in env ==> parseReal(env["DELAY_MIN"]).Some?
    requires "DELAY_MAX" in env ==> parseReal(env["DELAY_MAX"]).Some?
    ensures ParseNumbers(env, parseReal, parseInt) == NumberError("TIMEOUT")
  {
  }

  /** The remaining settings of `Config.__init__`, read with their defaults. */
  function Assemble(env: Env, selectors: map<string, string>, n: Numbers): (c: Config)
    ensures c.selectors == selectors
    ensures c.delayRange == (n.delayMin, n.delayMax) && c.timeout == n.timeout && c.maxRetries == n.maxRetries
    ensures c.respectRobots <==> SpellsTrue(GetEnv(env, "RESPECT_ROBOTS", "true"))
    ensures c.useSelenium <==> SpellsTrue(GetEnv(env, "USE_SELENIUM", "false"))
    ensures c.seleniumHeadless <==> SpellsTrue(GetEnv(env, "SELENIUM_HEADLESS", "true"))
    ensures "RESPECT_ROBOTS" !in env ==> c.respectRobots
    ensures "USE_SELENIUM" !in env ==> !c.useSelenium
    ensures "SELENIUM_HEADLESS" !in env ==> c.seleniumHeadless
    ensures c.targetUrl == GetEnv(env, "TARGET_URL", "https://httpbin.org/html")
    ensures c.customUserAgent == GetOptEnv(env, "CUSTOM_USER_AGENT")
    ensures c.httpProxy == GetOptEnv(env, "HTTP_PROXY")
    ensures c.httpsProxy == GetOptEnv(env, "HTTPS_PROXY")
  {
    Config(
      targetUrl := GetEnv(env, "TARGET_URL", "https://httpbin.org/html"),
      selectors := selectors,
      delayRange := (n.delayMin, n.delayMax),
      timeout := n.timeout,
      maxRetries := n.maxRetries,
      respectRobots := ParseFlag(env, "RESPECT_ROBOTS", "true"),
      useSelenium := ParseFlag(env, "USE_SELENIUM", "false"),
      outputJson := GetEnv(env, "OUTPUT_JSON", "scraped_data.json"),
      outputCsv := GetEnv(env, "OUTPUT_CSV", "scraped_data.csv"),
      customUserAgent := GetOptEnv(env, "CUSTOM_USER_AGENT"),
      httpProxy := GetOptEnv(env, "HTTP_PROXY"),
      httpsProxy := GetOptEnv(env, "HTTPS_PROXY"),
      chromeDriverPath := GetOptEnv(env, "CHROME_DRIVER_PATH"),
      seleniumHeadless := ParseFlag(env, "SELENIUM_HEADLESS", "true"),
      seleniumWindowSize := GetEnv(env, "SELENIUM_WINDOW_SIZE", "1920,1080"),
      logLevel := GetEnv(env, "LOG_LEVEL", "INFO"),
      logFile := GetEnv(env, "LOG_FILE", "scraper.log"))
  }

  /** `Config.__init__`: every setting with its default; construction fails
      when a set numeric variable does not convert. */
  function LoadConfig(env: Env, decode: string -> JsonResult,
                      parseReal: string -> Option<real>, parseInt: string -> Option<int>): (r: LoadResult)
    ensures r.Loaded? <==> NumbersParse(env, parseReal, parseInt)
    ensures r.LoadFailed? ==>
              && r.error.variable in {"DELAY_MIN", "DELAY_MAX", "TIMEOUT", "MAX_RETRIES"}
              && FirstBadNumber(env, parseReal, parseInt, r.error.variable)
    ensures r.Loaded? ==>
              && r.config.selectors == ParseSelectors(env, decode)
              && ("DELAY_MIN" !in env ==> r.config.delayRange.0 == 2.0)
              && ("DELAY_MAX" !in env ==> r.config.delayRange.1 == 4.0)
              && ("TIMEOUT" !in env ==> r.config.timeout == 30)
              && ("MAX_RETRIES" !in env ==> r.config.maxRetries == 3)
    ensures r.Loaded? ==>
              && ("DELAY_MIN" in env ==> r.config.delayRange.0 == parseReal(env["DELAY_MIN"]).value)
              && ("DELAY_MAX" in env ==> r.config.delayRange.1 == parseReal(env["DELAY_MAX"]).value)
              && ("TIMEOUT" in env ==> r.config.timeout == parseInt(env["TIMEOUT"]).value)
              && ("MAX_RETRIES" in env ==> r.config.maxRetries == parseInt(env["MAX_RETRIES"]).value)
    ensures r.Loaded? ==>
              r.config == Assemble(env, ParseSelectors(env, decode), ParseNumbers(env, parseReal, parseInt).numbers)
  {
    var selectors := ParseSelectors(env, decode);
    match ParseNumbers(env, parseReal, parseInt)
    case NumberError(variable) => LoadFailed(InvalidNumber(variable))
    case Parsed(n) => Loaded(Assemble(env, selectors, n))
  }

  /** With an empty environment the configuration is the documented set of
      defaults, whatever the number parsers would say. */
  lemma EmptyEnvDefaults(decode: string -> JsonResult,
                         parseReal: string -> Option<real>, parseInt: string -> Option<int>)
    requires decode("{}") == JsonObject(map[])
    ensures LoadConfig(map[], decode, parseReal, parseInt).Loaded?
    ensures var c := LoadConfig(map[], decode, parseReal, parseInt).config;
            && c.delayRange == (2.0, 4.0) && c.timeout == 30 && c.maxRetries == 3
            && c.respectRobots && !c.useSelenium && c.seleniumHeadless
            && c.selectors == map[]
            && c.customUserAgent.None? && c.httpProxy.None? && c.httpsProxy.None?
  {
  }

  /** `Config.get_proxy_dict`: the truthy proxy settings keyed by scheme,
      or `None` when there are none. */
  function ProxyDict(cfg: Config): (r: Option<map<string, string>>)
    ensures r.None? <==> !Truthy(cfg.httpProxy) && !Truthy(cfg.httpsProxy)
    ensures r.Some? ==> r.value != map[]
    ensures r.Some? ==> r.value.Keys <= {"http", "https"}
    ensures r.Some? ==> ("http" in r.value <==> Truthy(cfg.httpProxy))
    ensures r.Some? ==> ("https" in r.value <==> Truthy(cfg.httpsProxy))
    ensures r.Some? && "http" in r.value ==> r.value["http"] == cfg.httpProxy.value
    ensures r.Some? && "https" in r.value ==> r.value["https"] == cfg.httpsProxy.value
  {
    var withHttp: map<string, string> := if Truthy(cfg.httpProxy) then map["http" := cfg.httpProxy.value] else map[];
    var proxies := if Truthy(cfg.httpsProxy) then withHttp["https" := cfg.httpsProxy.value] else withHttp;
    assert Truthy(cfg.httpProxy) ==> "http" in proxies;
    assert Truthy(cfg.httpsProxy) ==> "https" in proxies;
    if proxies != map[] then Some(proxies) else None
  }
}
