/** The retry loop of the source client (src/shared/http/client.py) around the limiter. */
module HttpClient {
  import opened Wrappers
  import opened RateLimit

  datatype ClientConfig = ClientConfig(maxRetries: nat, retryBackoff: real, limit: RateLimitConfig)

  /** What the network may do with a request. `Malformed` is a delivered body that is
      not a JSON object; `Fatal` covers error statuses that are not retried and bodies
      over the size limit; `Transient` covers time-outs, transport errors and
      retriable statuses. */
  datatype Reply = Delivered | Malformed | Fatal | Transient

  datatype Attempt = Attempt(reply: Reply, latency: real)

  datatype Cause = BadBody | ErrorStatus | Unreachable | BreakerOpen

  predicate Retryable(cause: Cause) { cause.Unreachable? || cause.BreakerOpen? }

  /** The limiter, if there is one, the clock, and what the call has done so far:
      requests sent, time slept between attempts, calls made on the limiter. */
  datatype Going = Going(limiter: Option<Limiter>, clock: real, requests: nat, slept: real, calls: seq<Call>)

  datatype Fetched = Fetched(error: Option<Cause>, attempts: nat, end: Going)

  function Called(cfg: RateLimitConfig, g: Going, call: Call): Going
    requires cfg.Valid() && g.limiter.Some?
  {
    g.(limiter := Some(Step(cfg, g.limiter.value, call)), calls := g.calls + [call])
  }

  /** One attempt: past the limiter, through the network, and the success recorded. */
  function Once(cfg: RateLimitConfig, g: Going, a: Attempt): (Option<Cause>, Going)
    requires cfg.Valid()
  {
    if g.limiter.Some? && !Passes(cfg, g.limiter.value, g.clock) then
      (Some(BreakerOpen), Called(cfg, g, WaitAt(g.clock)))
    else
      var wait := if g.limiter.Some? then AdmissionOf(cfg, g.limiter.value, g.clock).wait else 0.0;
      var waited := if g.limiter.Some? then Called(cfg, g, WaitAt(g.clock)) else g;
      var sent := waited.(clock := g.clock + wait + a.latency, requests := g.requests + 1);
      match a.reply
      case Fatal => (Some(ErrorStatus), sent)
      case Transient => (Some(Unreachable), sent)
      case Delivered => (None, if g.limiter.Some? then Called(cfg, sent, Succeed) else sent)
      case Malformed => (Some(BadBody), if g.limiter.Some? then Called(cfg, sent, Succeed) else sent)
  }

  function Recorded(cfg: RateLimitConfig, g: Going, cause: Cause): Going
    requires cfg.Valid()
  {
    if g.limiter.Some? && Retryable(cause) then Called(cfg, g, FailAt(g.clock)) else g
  }

  function Delay(c: ClientConfig, g: Going): real {
    if g.limiter.Some? then BackoffDelay(c.limit, g.limiter.value.failureCount)
    else MaxReal(c.retryBackoff, 0.0)
  }

  function Rested(c: ClientConfig, g: Going): Going {
    g.(clock := g.clock + Delay(c, g), slept := g.slept + Delay(c, g))
  }

  function Retry(c: ClientConfig, g: Going, attempt: nat, net: nat -> Attempt): Fetched
    requires c.limit.Valid() && 1 <= attempt <= c.maxRetries + 1
    decreases c.maxRetries + 1 - attempt
  {
    var (error, tried) := Once(c.limit, g, net(attempt));
    match error
    case None => Fetched(None, attempt, tried)
    case Some(cause) =>
      var recorded := Recorded(c.limit, tried, cause);
      if !Retryable(cause) || attempt == c.maxRetries + 1 then Fetched(Some(cause), attempt, recorded)
      else Retry(c, Rested(c, recorded), attempt + 1, net)
  }

  function Ready(limiter: Option<Limiter>, now: real): Going {
    Going(limiter, now, 0, 0.0, [])
  }

  class SourceHttpClient {
    const config: ClientConfig
    const rateLimiter: SourceRateLimiter?

    constructor (config: ClientConfig, rateLimiter: SourceRateLimiter?)
      ensures this.config == config && this.rateLimiter == rateLimiter
    {
      this.config, this.rateLimiter := config, rateLimiter;
    }

    ghost predicate Valid() {
      config.limit.Valid() && (rateLimiter != null ==> rateLimiter.config == config.limit)
    }

    ghost function LimiterState(): Option<Limiter>
      reads rateLimiter
    {
      if rateLimiter == null then None else Some(rateLimiter.Now())
    }

    /** Starts at time `now`; the i-th attempt that reaches the network meets `net(i)`. */
    method RequestJson(now: real, net: nat -> Attempt)
      returns (error: Option<Cause>, attempts: nat, clock: real, ghost end: Going)
      requires Valid()
      modifies rateLimiter
      ensures Fetched(error, attempts, end) == Retry(config, Ready(old(LimiterState()), now), 1, net)
      ensures end.limiter == LimiterState() && end.clock == clock
    {
      clock := now;
      ghost var g := Ready(LimiterState(), now);
      var limit := config.maxRetries + 1;
      attempts := 1;
      while true
        invariant 1 <= attempts <= limit
        invariant g.limiter == LimiterState() && g.clock == clock
        invariant Retry(config, g, attempts, net) == Retry(config, Ready(old(LimiterState()), now), 1, net)
        decreases limit - attempts
      {
        ghost var (failure, tried) := Once(config.limit, g, net(attempts));
        error, clock := RequestOnce(clock, net(attempts), g);
        if error.None? {
          end := tried;
          return;
        }
        if rateLimiter != null && Retryable(error.value) {
          rateLimiter.RecordFailure(clock);
        }
        ghost var recorded := Recorded(config.limit, tried, error.value);
        if !Retryable(error.value) || attempts == limit {
          end := recorded;
          return;
        }
        var delay := MaxReal(config.retryBackoff, 0.0);
        if rateLimiter != null {
          delay := rateLimiter.BackoffAfterFailure(None);
        }
        clock := clock + delay;
        g := Rested(config, recorded);
        attempts := attempts + 1;
      }
    }

    method RequestOnce(now: real, a: Attempt, ghost g: Going) returns (error: Option<Cause>, clock: real)
      requires Valid() && g.limiter == LimiterState() && g.clock == now
      modifies rateLimiter
      ensures error == Once(config.limit, g, a).0
      ensures Once(config.limit, g, a).1.limiter == LimiterState() && Once(config.limit, g, a).1.clock == clock
    {
      clock := now;
      if rateLimiter != null {
        var admission := rateLimiter.WaitBeforeRequest(clock);
        if admission.Rejected? {
          return Some(BreakerOpen), clock;
        }
        clock := clock + admission.wait;
      }
      clock := clock + a.latency;
      match a.reply {
        case Fatal => return Some(ErrorStatus), clock;
        case Transient => return Some(Unreachable), clock;
        case _ =>
      }
      if rateLimiter != null {
        rateLimiter.RecordSuccess();
      }
      error := if a.reply.Malformed? then Some(BadBody) else None;
    }
  }

  // ---------------------------------------------------------------------
  // Bounds of one call
  // ---------------------------------------------------------------------

  lemma BackoffIsBounded(cfg: RateLimitConfig, failures: int)
    requires cfg.Valid()
    ensures 0.0 <= BackoffDelay(cfg, failures) <= cfg.maxBackoff
  {
    if failures > 0 {
      DoubledGrows(cfg.initialBackoff, 0, failures - 1);
    }
  }

  lemma {:induction false} DoubledGrows(x: real, few: nat, many: nat)
    requires x >= 0.0 && few <= many
    ensures x <= Doubled(x, few) <= Doubled(x, many)
    decreases many
  {
    if few < many {
      DoubledGrows(x, few, many - 1);
    } else if few > 0 {
      DoubledGrows(x, few - 1, few - 1);
    }
  }

  /** The backoff starts at its initial length and doubles with each failure, up to its cap. */
  lemma BackoffDoubles(cfg: RateLimitConfig, failures: nat)
    requires cfg.Valid()
    ensures BackoffDelay(cfg, 0) == 0.0 && BackoffDelay(cfg, 1) == cfg.initialBackoff
    ensures failures >= 1 ==>
              BackoffDelay(cfg, failures + 1) == MinReal(2.0 * BackoffDelay(cfg, failures), cfg.maxBackoff)
  {
    if failures >= 1 {
      DoubledGrows(cfg.initialBackoff, failures - 1, failures);
    }
  }

  /** What a finished call has done. */
  ghost predicate WithinBounds(c: ClientConfig, net: nat -> Attempt, g: Going, first: nat, f: Fetched)
    requires c.limit.Valid()
  {
    && first <= f.attempts <= c.maxRetries + 1
    && f.end.requests <= g.requests + (f.attempts + 1 - first)
    && (g.limiter.Some? ==>
          g.slept <= f.end.slept <= g.slept + Times(f.attempts - first, c.limit.maxBackoff))
    && (g.limiter.None? ==>
          && f.end.requests == g.requests + (f.attempts + 1 - first)
          && f.end.slept == g.slept + Times(f.attempts - first, MaxReal(c.retryBackoff, 0.0)))
    && (f.error.None? ==> net(f.attempts).reply.Delivered?)
    && (f.error.Some? && Retryable(f.error.value) ==> f.attempts == c.maxRetries + 1)
  }

  lemma {:induction false} RetryStaysWithinBounds(c: ClientConfig, g: Going, attempt: nat, net: nat -> Attempt)
    requires c.limit.Valid() && 1 <= attempt <= c.maxRetries + 1
    ensures WithinBounds(c, net, g, attempt, Retry(c, g, attempt, net))
    decreases c.maxRetries + 1 - attempt
  {
    hide Step, AdmissionOf, Passes, BackoffDelay;
    var (error, tried) := Once(c.limit, g, net(attempt));
    assert Times(0, c.limit.maxBackoff) == 0.0 && Times(0, MaxReal(c.retryBackoff, 0.0)) == 0.0;
    if error.Some? && Retryable(error.value) && attempt < c.maxRetries + 1 {
      var recorded := Recorded(c.limit, tried, error.value);
      RetryStaysWithinBounds(c, Rested(c, recorded), attempt + 1, net);
      BackoffIsBounded(c.limit, if recorded.limiter.Some? then recorded.limiter.value.failureCount else 0);
    }
  }

  /** One call makes at most one attempt more than it has retries, and each attempt
      sends at most one request. With a limiter it sleeps between attempts at most the
      longest backoff per retry. It gives up on a retryable error only after all of them. */
  lemma CallsAreBounded(c: ClientConfig, limiter: Option<Limiter>, now: real, net: nat -> Attempt)
    requires c.limit.Valid()
    ensures var f := Retry(c, Ready(limiter, now), 1, net);
            && f.end.requests <= f.attempts <= c.maxRetries + 1
            && (limiter.Some? ==> f.end.slept <= c.maxRetries as real * c.limit.maxBackoff)
            && (f.error.Some? && Retryable(f.error.value) ==> f.attempts == c.maxRetries + 1)
  {
    hide Retry;
    var f := Retry(c, Ready(limiter, now), 1, net);
    RetryStaysWithinBounds(c, Ready(limiter, now), 1, net);
    TimesIsProduct(c.maxRetries, c.limit.maxBackoff);
    TimesGrows(f.attempts - 1, c.maxRetries, c.limit.maxBackoff);
  }

  /** What a call without a limiter has done: a request per attempt, the same sleep between
      any two, and a retry exactly behind a reply that is transient. */
  ghost predicate Unpaced(c: ClientConfig, net: nat -> Attempt, g: Going, first: nat, f: Fetched) {
    && first <= f.attempts <= c.maxRetries + 1
    && (forall i | first <= i < f.attempts :: net(i).reply.Transient?)
    && (f.attempts <= c.maxRetries ==> !net(f.attempts).reply.Transient?)
    && f.error == (match net(f.attempts).reply
                   case Delivered => None
                   case Malformed => Some(BadBody)
                   case Fatal => Some(ErrorStatus)
                   case Transient => Some(Unreachable))
    && f.end.limiter.None? && f.end.calls == g.calls
    && f.end.requests == g.requests + (f.attempts + 1 - first)
    && f.end.slept == g.slept + Times(f.attempts - first, MaxReal(c.retryBackoff, 0.0))
  }

  lemma {:induction false} UnpacedRetries(c: ClientConfig, g: Going, attempt: nat, net: nat -> Attempt)
    requires c.limit.Valid() && 1 <= attempt <= c.maxRetries + 1 && g.limiter.None?
    ensures Unpaced(c, net, g, attempt, Retry(c, g, attempt, net))
    decreases c.maxRetries + 1 - attempt
  {
    assert Times(0, MaxReal(c.retryBackoff, 0.0)) == 0.0;
    var (error, tried) := Once(c.limit, g, net(attempt));
    if error.Some? && Retryable(error.value) && attempt < c.maxRetries + 1 {
      UnpacedRetries(c, Rested(c, tried), attempt + 1, net);
    }
  }

  /** Without a limiter the replies alone decide: a call ends with the first reply that is not
      transient, or with its last attempt. */
  lemma RepliesDecideUnpacedCall(c: ClientConfig, now: real, net: nat -> Attempt)
    requires c.limit.Valid()
    ensures Unpaced(c, net, Ready(None, now), 1, Retry(c, Ready(None, now), 1, net))
  {
    hide Retry, Unpaced;
    UnpacedRetries(c, Ready(None, now), 1, net);
  }

  lemma {:induction false} TimesGrows(few: nat, many: nat, x: real)
    requires few <= many && x >= 0.0
    ensures Times(few, x) <= Times(many, x)
    decreases many
  {
    if few < many {
      TimesGrows(few, many - 1, x);
    }
  }

  // ---------------------------------------------------------------------
  // The limiter during a call
  // ---------------------------------------------------------------------

  /** The limiter's state is the outcome of the calls made on it. */
  ghost predicate Explained(cfg: RateLimitConfig, before: seq<Call>, g: Going)
    requires cfg.Valid()
  {
    g.limiter == Some(After(cfg, before + g.calls))
  }

  lemma CallExplained(cfg: RateLimitConfig, before: seq<Call>, g: Going, call: Call)
    requires cfg.Valid() && Explained(cfg, before, g)
    ensures Explained(cfg, before, Called(cfg, g, call))
  {
    var all := before + (g.calls + [call]);
    assert all[..|all| - 1] == before + g.calls;
  }

  /** Whatever the network does, a call moves the limiter only by the limiter's own
      steps: everything proved about histories of limiter calls holds across calls of
      the client. */
  lemma {:induction false} CallsAreHistories(c: ClientConfig, before: seq<Call>, g: Going, attempt: nat,
                                             net: nat -> Attempt)
    requires c.limit.Valid() && 1 <= attempt <= c.maxRetries + 1 && Explained(c.limit, before, g)
    ensures Explained(c.limit, before, Retry(c, g, attempt, net).end)
    decreases c.maxRetries + 1 - attempt
  {
    hide After, Step, Passes, AdmissionOf;
    var (error, tried) := Once(c.limit, g, net(attempt));
    var waited := Called(c.limit, g, WaitAt(g.clock));
    CallExplained(c.limit, before, g, WaitAt(g.clock));
    var sent := waited.(clock := tried.clock, requests := tried.requests);
    CallExplained(c.limit, before, sent, Succeed);
    assert Explained(c.limit, before, tried);
    if error.Some? {
      CallExplained(c.limit, before, tried, FailAt(tried.clock));
      var recorded := Recorded(c.limit, tried, error.value);
      if Retryable(error.value) && attempt < c.maxRetries + 1 {
        CallsAreHistories(c, before, Rested(c, recorded), attempt + 1, net);
      }
    }
  }

  // ---------------------------------------------------------------------
  // A rejection by the breaker counts as a failure
  // ---------------------------------------------------------------------

  /** The breaker is open and a request would be turned away. */
  predicate ShutOut(cfg: RateLimitConfig, g: Going) {
    && g.limiter.Some? && g.limiter.value.circuitOpen && g.limiter.value.openedAt.Some?
    && g.limiter.value.failureCount >= cfg.failureThreshold
    && g.clock - g.limiter.value.openedAt.value < cfg.cooldown
  }

  /** The attempt is rejected, and the rejection is recorded as one more failure. */
  function TurnedAway(cfg: RateLimitConfig, g: Going): Going
    requires g.limiter.Some?
  {
    var s := g.limiter.value;
    g.(limiter := Some(s.(failureCount := s.failureCount + 1, openedAt := Some(g.clock))),
       calls := g.calls + [WaitAt(g.clock), FailAt(g.clock)])
  }

  lemma RejectionRestartsCooldown(cfg: RateLimitConfig, g: Going, a: Attempt)
    requires cfg.Valid() && ShutOut(cfg, g)
    ensures Once(cfg, g, a).0 == Some(BreakerOpen)
    ensures Recorded(cfg, Once(cfg, g, a).1, BreakerOpen) == TurnedAway(cfg, g)
  {
    assert g.calls + [WaitAt(g.clock)] + [FailAt(g.clock)] == g.calls + [WaitAt(g.clock), FailAt(g.clock)];
  }

  lemma {:induction false} RequestsOnlyGrow(c: ClientConfig, g: Going, attempt: nat, net: nat -> Attempt)
    requires c.limit.Valid() && 1 <= attempt <= c.maxRetries + 1
    ensures Retry(c, g, attempt, net).end.requests >= g.requests
    ensures (g.limiter.None? || Passes(c.limit, g.limiter.value, g.clock)) ==>
              Retry(c, g, attempt, net).end.requests > g.requests
    decreases c.maxRetries + 1 - attempt
  {
    hide Step, AdmissionOf, Passes, BackoffDelay;
    var (error, tried) := Once(c.limit, g, net(attempt));
    if error.Some? && Retryable(error.value) && attempt < c.maxRetries + 1 {
      RequestsOnlyGrow(c, Rested(c, Recorded(c.limit, tried, error.value)), attempt + 1, net);
    }
  }

  lemma BackoffGrows(cfg: RateLimitConfig, few: nat, many: nat)
    requires cfg.Valid() && 1 <= few <= many
    ensures BackoffDelay(cfg, few) <= BackoffDelay(cfg, many)
  {
    DoubledGrows(cfg.initialBackoff, few - 1, many - 1);
  }

  /** The longest sleep of the retries that are left. */
  function LongestDelay(c: ClientConfig, failures: nat, attempt: nat): real
    requires 1 <= attempt <= c.maxRetries + 1
  {
    if attempt == c.maxRetries + 1 then 0.0
    else BackoffDelay(c.limit, failures + (c.maxRetries + 1 - attempt))
  }

  /** The attempt that is turned away: unless it is the last one, the call goes on after a
      sleep, and is still shut out exactly when the sleep is shorter than the cooldown. */
  lemma TurnedAwayOnce(c: ClientConfig, g: Going, attempt: nat, net: nat -> Attempt)
    requires c.limit.Valid() && 1 <= attempt <= c.maxRetries + 1 && ShutOut(c.limit, g)
    ensures var delay := BackoffDelay(c.limit, g.limiter.value.failureCount + 1);
            var next := g.(limiter := TurnedAway(c.limit, g).limiter, calls := TurnedAway(c.limit, g).calls,
                           clock := g.clock + delay, slept := g.slept + delay);
            && (attempt < c.maxRetries + 1 ==> Retry(c, g, attempt, net) == Retry(c, next, attempt + 1, net))
            && (attempt == c.maxRetries + 1 ==>
                  Retry(c, g, attempt, net) == Fetched(Some(BreakerOpen), attempt, TurnedAway(c.limit, g)))
            && (ShutOut(c.limit, next) <==> delay < c.limit.cooldown)
            && (Passes(c.limit, next.limiter.value, next.clock) <==> delay >= c.limit.cooldown)
  {
    hide BackoffDelay, Once, Recorded;
    RejectionRestartsCooldown(c.limit, g, net(attempt));
  }

  /** What becomes of a call that is shut out at this attempt and never gets through: every
      retry is spent, each turned away, and the cooldown starts anew at its end. */
  ghost predicate Starved(c: ClientConfig, g: Going, attempt: nat, f: Fetched)
    requires 1 <= attempt <= c.maxRetries + 1 && g.limiter.Some?
  {
    && f.error == Some(BreakerOpen) && f.attempts == c.maxRetries + 1
    && f.end.limiter.Some? && f.end.limiter.value.openedAt == Some(f.end.clock)
    && f.end.limiter.value.failureCount == g.limiter.value.failureCount + (c.maxRetries + 2 - attempt)
  }

  /** A call that meets an open breaker keeps it open: its own rejections restart the
      cooldown. No request goes out at all exactly when even the longest backoff of
      the call is shorter than the cooldown; and then every retry is spent and the
      breaker's cooldown starts anew at the end of the call. */
  lemma {:induction false} OpenBreakerStarvesTheCall(c: ClientConfig, g: Going, attempt: nat, net: nat -> Attempt)
    requires c.limit.Valid() && 1 <= attempt <= c.maxRetries + 1 && ShutOut(c.limit, g)
    ensures var f := Retry(c, g, attempt, net);
            var starves := LongestDelay(c, g.limiter.value.failureCount, attempt) < c.limit.cooldown;
            && (f.end.requests == g.requests <==> starves)
            && (starves ==> Starved(c, g, attempt, f))
    decreases c.maxRetries + 1 - attempt
  {
    hide Retry, BackoffDelay, Passes, Once;
    TurnedAwayOnce(c, g, attempt, net);
    if attempt < c.maxRetries + 1 {
      var failures := g.limiter.value.failureCount;
      var delay := BackoffDelay(c.limit, failures + 1);
      var next := g.(limiter := TurnedAway(c.limit, g).limiter, calls := TurnedAway(c.limit, g).calls,
                     clock := g.clock + delay, slept := g.slept + delay);
      BackoffGrows(c.limit, failures + 1, failures + (c.maxRetries + 1 - attempt));
      RequestsOnlyGrow(c, next, attempt + 1, net);
      if delay < c.limit.cooldown {
        OpenBreakerStarvesTheCall(c, next, attempt + 1, net);
      }
    }
  }
}
