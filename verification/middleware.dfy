/**
 * The per-client rate limiter and the CORS short-circuit of
 * internal/middleware/middleware.go. The limiter's state is a value and each
 * request is one step; the clock is an input in nanoseconds, and the
 * background cleanup loop is one `Cleanup` step at a given instant.
 */
module Middleware {

  import opened Results
  import opened Models

  /** `time.Minute` in nanoseconds. */
  const Minute: int := 60_000_000_000

  /** `time.Minute * 5`, the cleanup period. */
  const CleanupPeriod: int := 5 * Minute

  const TooManyRequests: int := 429
  const NoContent: int := 204

  /** One client's counter: the requests counted in its current window and when it was last admitted. */
  datatype Visitor = Visitor(requests: int, lastSeen: Timestamp)

  /** `RateLimiter`: the visitors by client IP and the allowed requests per minute. */
  datatype Limiter = Limiter(visitors: map<string, Visitor>, rate: int)

  /** What the middleware did with a request: passed it on, or answered 429. */
  datatype Verdict = Admitted | Rejected(status: int)

  datatype Step = Step(limiter: Limiter, verdict: Verdict)

  /** `NewRateLimiter`: no visitors yet. */
  function NewRateLimiter(requestsPerMinute: int): (l: Limiter)
    ensures l.visitors == map[] && l.rate == requestsPerMinute
  {
    Limiter(map[], requestsPerMinute)
  }

  /**
   * `RateLimiter.Middleware` for one request from `ip` at `now`: an unseen
   * client is admitted with a count of one; a client idle for more than a
   * minute starts a new window; a client at the limit is refused with 429 and
   * its state is left alone; otherwise the count goes up by one. Only the
   * requesting client's entry ever changes.
   */
  function Admit(l: Limiter, ip: string, now: Timestamp): (s: Step)
    ensures s.limiter.rate == l.rate
    ensures s.limiter.visitors.Keys == l.visitors.Keys + {ip}
    ensures forall other :: other in l.visitors && other != ip ==> s.limiter.visitors[other] == l.visitors[other]
    ensures ip !in l.visitors ==> s.verdict == Admitted && s.limiter.visitors[ip] == Visitor(1, now)
    ensures ip in l.visitors && now - l.visitors[ip].lastSeen > Minute ==>
      s.verdict == Admitted && s.limiter.visitors[ip] == Visitor(1, now)
    ensures ip in l.visitors && now - l.visitors[ip].lastSeen <= Minute && l.visitors[ip].requests >= l.rate ==>
      s.verdict == Rejected(TooManyRequests) && s.limiter == l
    ensures ip in l.visitors && now - l.visitors[ip].lastSeen <= Minute && l.visitors[ip].requests < l.rate ==>
      s.verdict == Admitted && s.limiter.visitors[ip] == Visitor(l.visitors[ip].requests + 1, now)
    ensures s.verdict.Rejected? <==>
      ip in l.visitors && now - l.visitors[ip].lastSeen <= Minute && l.visitors[ip].requests >= l.rate
  {
    if ip !in l.visitors then Step(l.(visitors := l.visitors[ip := Visitor(1, now)]), Admitted)
    else
      var v := l.visitors[ip];
      if now - v.lastSeen > Minute then Step(l.(visitors := l.visitors[ip := Visitor(1, now)]), Admitted)
      else if v.requests >= l.rate then Step(l, Rejected(TooManyRequests))
      else Step(l.(visitors := l.visitors[ip := Visitor(v.requests + 1, now)]), Admitted)
  }

  /** Every counter lies between one and the rate. */
  predicate Bounded(l: Limiter) {
    forall ip :: ip in l.visitors ==> 1 <= l.visitors[ip].requests <= l.rate
  }

  /** With a rate of at least one, no counter ever passes the rate. */
  lemma AdmitPreservesBound(l: Limiter, ip: string, now: Timestamp)
    requires l.rate >= 1
    requires Bounded(l)
    ensures Bounded(Admit(l, ip, now).limiter)
  {
  }

  /** The outcome of a run of requests: the final state and one verdict per request. */
  datatype Trace = Trace(limiter: Limiter, verdicts: seq<Verdict>)

  /** Requests handled one after another, the i-th from `ips[i]` at `times[i]`. */
  function Replay(l: Limiter, ips: seq<string>, times: seq<Timestamp>): (t: Trace)
    requires |ips| == |times|
    ensures |t.verdicts| == |ips|
    ensures t.limiter.rate == l.rate
    decreases |ips|
  {
    if |ips| == 0 then Trace(l, [])
    else
      var s := Admit(l, ips[0], times[0]);
      var rest := Replay(s.limiter, ips[1..], times[1..]);
      Trace(rest.limiter, [s.verdict] + rest.verdicts)
  }

  /** Over any run of requests, a limiter with a rate of at least one stays bounded. */
  lemma {:induction false} ReplayPreservesBound(l: Limiter, ips: seq<string>, times: seq<Timestamp>)
    requires |ips| == |times|
    requires l.rate >= 1 && Bounded(l)
    ensures Bounded(Replay(l, ips, times).limiter)
    decreases |ips|
  {
    if |ips| > 0 {
      AdmitPreservesBound(l, ips[0], times[0]);
      ReplayPreservesBound(Admit(l, ips[0], times[0]).limiter, ips[1..], times[1..]);
    }
  }

  /** A rate of zero or less refuses every request from a known client within its minute. */
  lemma NonPositiveRateRefusesKnownClients(l: Limiter, ip: string, now: Timestamp)
    requires l.rate <= 0 && ip in l.visitors && now - l.visitors[ip].lastSeen <= Minute
    requires l.visitors[ip].requests >= 1
    ensures Admit(l, ip, now).verdict == Rejected(TooManyRequests)
  {
  }

  /** Whether a visitor has been idle longer than the cleanup period at `now`. */
  predicate Idle(v: Visitor, now: Timestamp) {
    now - v.lastSeen > CleanupPeriod
  }

  /** `cleanupVisitors`, one sweep: the idle visitors are removed, the others kept as they were. */
  function Cleanup(l: Limiter, now: Timestamp): (c: Limiter)
    ensures c.rate == l.rate
    ensures forall ip :: ip in c.visitors <==> ip in l.visitors && !Idle(l.visitors[ip], now)
    ensures forall ip :: ip in c.visitors ==> c.visitors[ip] == l.visitors[ip]
  {
    Limiter(map ip | ip in l.visitors && !Idle(l.visitors[ip], now) :: l.visitors[ip], l.rate)
  }

  /** A sweep keeps the limiter bounded, and a second sweep at the same instant removes nothing more. */
  lemma CleanupPreservesBound(l: Limiter, now: Timestamp)
    ensures Bounded(l) ==> Bounded(Cleanup(l, now))
    ensures Cleanup(Cleanup(l, now), now) == Cleanup(l, now)
  {
  }

  /**
   * A client removed by a sweep is treated as unseen afterwards, which admits
   * it just as the minute reset would have, since the cleanup period is longer
   * than a minute.
   */
  lemma CleanupInvisibleToClients(l: Limiter, ip: string, swept: Timestamp, now: Timestamp)
    requires ip in l.visitors && Idle(l.visitors[ip], swept) && swept <= now
    ensures Admit(Cleanup(l, swept), ip, now).verdict == Admit(l, ip, now).verdict == Admitted
    ensures Admit(Cleanup(l, swept), ip, now).limiter.visitors[ip] == Admit(l, ip, now).limiter.visitors[ip]
  {
  }

  /** The headers `CORS` sets on every response. */
  const CorsHeaders: map<string, string> := map[
    "Access-Control-Allow-Origin" := "*",
    "Access-Control-Allow-Credentials" := "true",
    "Access-Control-Allow-Headers" :=
      "Content-Type, Content-Length, Accept-Encoding, X-CSRF-Token, Authorization, accept, origin, Cache-Control, X-Requested-With",
    "Access-Control-Allow-Methods" := "POST, OPTIONS, GET, PUT, DELETE"
  ]

  /** What `CORS` did: the headers it set, and the status it aborted with, if it did. */
  datatype CorsOutcome = CorsOutcome(headers: map<string, string>, aborted: Option<int>)

  /** `CORS` for a request with HTTP method `verb`: the headers always; a preflight `OPTIONS` request is answered 204 and goes no further. */
  function Cors(verb: string): (o: CorsOutcome)
    ensures o.headers == CorsHeaders
    ensures o.aborted.Some? <==> verb == "OPTIONS"
    ensures o.aborted.Some? ==> o.aborted.value == NoContent
  {
    CorsOutcome(CorsHeaders, if verb == "OPTIONS" then Some(NoContent) else None)
  }
}
