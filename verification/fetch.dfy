/** Request orchestration of `WebScraper` (web_scraper.py): the retry loop
    with its counters and backoff schedule, user-agent choice, the robots
    decision and the statistics snapshot. Network, robots.txt and the
    user-agent rotator are inputs. */
module Fetch {
  import opened Common
  import opened Text

  /** The three request counters of `WebScraper.stats`. */
  datatype Stats = Stats(requestsMade: nat, successfulRequests: nat, failedRequests: nat)

  /** The counters a freshly constructed scraper starts from. */
  const InitialStats := Stats(0, 0, 0)

  /** No more outcomes are counted than requests were made. */
  predicate Consistent(s: Stats) {
    s.successfulRequests + s.failedRequests <= s.requestsMade
  }

  /** What one `session.get`/`session.post` plus `raise_for_status()` gives:
      a response with its text, or a `RequestException` (network failure,
      timeout or an error status). */
  datatype AttemptOutcome = Ok(text: string) | RequestErr

  /** What `_make_request` ends with: a response, `None`, or the
      `ValueError` it raises for a method other than GET and POST. */
  datatype RequestResult = Response(text: string) | NoResponse | UnsupportedMethod

  function Pow2(n: nat): (p: nat)
    ensures p >= 1
  {
    if n == 0 then 1 else 2 * Pow2(n - 1)
  }

  /** The sleeps taken before the first `k` retries: 2^0, ..., 2^(k-1) seconds. */
  function Backoff(k: nat): (s: seq<nat>)
    ensures |s| == k
    ensures forall i :: 0 <= i < k ==> s[i] == Pow2(i)
  {
    if k == 0 then [] else Backoff(k - 1) + [Pow2(k - 1)]
  }

  /** `method.upper()` is GET or POST. */
  predicate IsSupportedMethod(httpMethod: string) {
    Upper(httpMethod) == "GET" || Upper(httpMethod) == "POST"
  }

  /** The first `k` attempts all raise a request exception. */
  ghost predicate FailsBefore(outcome: nat -> AttemptOutcome, k: nat) {
    forall i: nat :: i < k ==> outcome(i).RequestErr?
  }

  /** Attempt `k` is the first that yields a response. */
  ghost predicate FirstOkAt(outcome: nat -> AttemptOutcome, k: nat) {
    FailsBefore(outcome, k) && outcome(k).Ok?
  }

  /** `WebScraper._make_request`: up to `maxRetries` attempts, attempt `i`
      having outcome `outcome(i)`. Every attempt counts a request; a
      response counts a success and is returned; a request exception counts
      a failure and is followed by a sleep of 2^attempt seconds unless it
      was the last attempt. An unsupported method raises on the first
      attempt after counting it, since `ValueError` is not a
      `RequestException`. `sleeps` lists the backoff sleeps in order. */
  method MakeRequest(maxRetries: int, httpMethod: string, outcome: nat -> AttemptOutcome, stats: Stats)
    returns (r: RequestResult, stats': Stats, sleeps: seq<nat>)
    ensures maxRetries <= 0 ==> r == NoResponse && stats' == stats && sleeps == []
    ensures maxRetries > 0 && !IsSupportedMethod(httpMethod) ==>
              && r == UnsupportedMethod
              && stats' == stats.(requestsMade := stats.requestsMade + 1)
              && sleeps == []
    ensures IsSupportedMethod(httpMethod) ==> !r.UnsupportedMethod?
    ensures r.Response? ==>
              var k := |sleeps|;
              && k < maxRetries
              && FirstOkAt(outcome, k)
              && outcome(k) == Ok(r.text)
              && stats' == Stats(stats.requestsMade + k + 1, stats.successfulRequests + 1, stats.failedRequests + k)
              && sleeps == Backoff(k)
    ensures r.NoResponse? && maxRetries > 0 ==>
              && IsSupportedMethod(httpMethod)
              && FailsBefore(outcome, maxRetries)
              && stats' == Stats(stats.requestsMade + maxRetries, stats.successfulRequests, stats.failedRequests + maxRetries)
              && sleeps == Backoff(maxRetries - 1)
    ensures forall k: nat :: k < maxRetries && IsSupportedMethod(httpMethod) && FirstOkAt(outcome, k) ==>
              r == Response(outcome(k).text) && |sleeps| == k
    ensures IsSupportedMethod(httpMethod) ==>
              stats'.requestsMade - stats.requestsMade
              == (stats'.successfulRequests - stats.successfulRequests) + (stats'.failedRequests - stats.failedRequests)
    ensures Consistent(stats) ==> Consistent(stats')
  {
    var supported := IsSupportedMethod(httpMethod);
    stats' := stats;
    sleeps := [];
    var attempt: nat := 0;
    while attempt < maxRetries
      invariant maxRetries > 0 ==> attempt < maxRetries
      invariant maxRetries <= 0 ==> attempt == 0
      invariant !supported ==> attempt == 0
      invariant FailsBefore(outcome, attempt)
      invariant stats' == Stats(stats.requestsMade + attempt, stats.successfulRequests, stats.failedRequests + attempt)
      invariant sleeps == Backoff(attempt)
    {
      stats' := stats'.(requestsMade := stats'.requestsMade + 1);
      if !supported {
        return UnsupportedMethod, stats', sleeps;
      }
      match outcome(attempt)
      case Ok(text) =>
        stats' := stats'.(successfulRequests := stats'.successfulRequests + 1);
        return Response(text), stats', sleeps;
      case RequestErr =>
        stats' := stats'.(failedRequests := stats'.failedRequests + 1);
        if attempt < maxRetries - 1 {
          sleeps := sleeps + [Pow2(attempt)];
        } else {
          return NoResponse, stats', sleeps;
        }
      attempt := attempt + 1;
    }
    r := NoResponse;
  }

  /** The fixed agent used when no other is available. */
  const DefaultUserAgent: string :=
    "Mozilla/5.0 (Windows NT 10.0; Win64; x64) AppleWebKit/537.36 "
    + "(KHTML, like Gecko) Chrome/91.0.4472.124 Safari/537.36"

  /** `WebScraper._get_user_agent`. `custom` is the configured agent,
      `hasRotator` whether a rotator was set up, and `draw` the rotator's
      random agent for this call (`None` when it raises). */
  function UserAgent(custom: Option<string>, hasRotator: bool, draw: Option<string>): (ua: string)
    ensures Truthy(custom) ==> ua == custom.value
    ensures !Truthy(custom) && hasRotator && draw.Some? ==> ua == draw.value
    ensures !Truthy(custom) && (!hasRotator || draw.None?) ==> ua == DefaultUserAgent
  {
    if Truthy(custom) then custom.value
    else if hasRotator then
      match draw
      case Some(agent) => agent
      case None => DefaultUserAgent
    else DefaultUserAgent
  }

  /** What resolving robots.txt gives: the parser's `can_fetch` answer, or
      an exception while building the URL, fetching or parsing. */
  datatype RobotsAnswer = CanFetch(allowed: bool) | ResolveError

  /** The decision, and whether robots.txt had to be resolved for it. */
  datatype RobotsVerdict = RobotsVerdict(allowed: bool, consulted: bool)

  /** `WebScraper._check_robots_txt`: allow without looking when robots are
      not respected, allow when resolution fails, otherwise follow the
      parser. */
  function CheckRobots(respectRobots: bool, answer: RobotsAnswer): (v: RobotsVerdict)
    ensures !respectRobots ==> v == RobotsVerdict(true, false)
    ensures respectRobots ==> v.consulted
    ensures respectRobots && answer.ResolveError? ==> v.allowed
    ensures respectRobots && answer.CanFetch? ==> v.allowed == answer.allowed
    ensures !v.allowed <==> respectRobots && answer == CanFetch(false)
  {
    if !respectRobots then RobotsVerdict(true, false)
    else
      match answer
      case CanFetch(allowed) => RobotsVerdict(allowed, true)
      case ResolveError => RobotsVerdict(true, true)
  }

  /** The counters of `get_statistics` with the derived success rate. */
  datatype Snapshot = Snapshot(requestsMade: nat, successfulRequests: nat, failedRequests: nat, successRate: real)

  /** `WebScraper.get_statistics`: the counters and successes divided by
      requests, or 0 before any request. */
  function GetStatistics(s: Stats): (r: Snapshot)
    ensures r.requestsMade == s.requestsMade
    ensures r.successfulRequests == s.successfulRequests
    ensures r.failedRequests == s.failedRequests
    ensures s.requestsMade == 0 ==> r.successRate == 0.0
    ensures s.requestsMade > 0 ==> r.successRate * (s.requestsMade as real) == s.successfulRequests as real
    ensures Consistent(s) ==> 0.0 <= r.successRate <= 1.0
  {
    var rate := if s.requestsMade > 0 then (s.successfulRequests as real) / (s.requestsMade as real) else 0.0;
    Snapshot(s.requestsMade, s.successfulRequests, s.failedRequests, rate)
  }
}
