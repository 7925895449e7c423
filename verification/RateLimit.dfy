/** Request pacing, the circuit breaker and the retry loop around them
    (src/shared/http/rate_limit.py and src/shared/http/client.py). Time is real-valued;
    a sleep takes exactly as long as asked. */
module RateLimit {
  import opened Wrappers

  datatype RateLimitConfig = RateLimitConfig(
    requestsPerMinute: int, initialBackoff: real, maxBackoff: real, failureThreshold: int, cooldown: real)
  {
    /** What the constructor insists on. */
    predicate Valid() {
      && requestsPerMinute > 0 && initialBackoff >= 0.0 && maxBackoff >= initialBackoff
      && failureThreshold > 0 && cooldown > 0.0
    }

    /** The time from one slot to the next. */
    function Gap(): (gap: real)
      requires Valid()
      ensures gap > 0.0
    {
      60.0 / requestsPerMinute as real
    }
  }

  datatype Admission = Admitted(slot: real, wait: real) | Rejected(retryAfter: real)

  /** The limiter's fields. */
  datatype Limiter = Limiter(nextAvailableAt: real, failureCount: nat, circuitOpen: bool, openedAt: Option<real>)

  const FRESH := Limiter(0.0, 0, false, None)

  function MaxReal(a: real, b: real): real { if a >= b then a else b }
  function MinReal(a: real, b: real): real { if a <= b then a else b }

  /** Whether a request at time `now` gets past the breaker. */
  predicate Passes(cfg: RateLimitConfig, s: Limiter, now: real) {
    !s.circuitOpen || (s.openedAt.Some? && now - s.openedAt.value >= cfg.cooldown)
  }

  function AfterWait(cfg: RateLimitConfig, s: Limiter, now: real): Limiter
    requires cfg.Valid()
  {
    if Passes(cfg, s, now) then
      var next := MaxReal(now, s.nextAvailableAt) + cfg.Gap();
      if s.circuitOpen then Limiter(next, 0, false, None) else s.(nextAvailableAt := next)
    else s
  }

  function AdmissionOf(cfg: RateLimitConfig, s: Limiter, now: real): Admission {
    if Passes(cfg, s, now) then
      Admitted(MaxReal(now, s.nextAvailableAt), MaxReal(s.nextAvailableAt - now, 0.0))
    else
      Rejected(MaxReal(cfg.cooldown - (if s.openedAt.None? then 0.0 else now - s.openedAt.value), 0.0))
  }

  function AfterSuccess(s: Limiter): Limiter {
    s.(failureCount := 0, circuitOpen := false, openedAt := None)
  }

  function AfterFailure(cfg: RateLimitConfig, s: Limiter, now: real): Limiter {
    var failures := s.failureCount + 1;
    if failures >= cfg.failureThreshold
    then s.(failureCount := failures, circuitOpen := true, openedAt := Some(now))
    else s.(failureCount := failures)
  }

  function Doubled(x: real, times: nat): real {
    if times == 0 then x else 2.0 * Doubled(x, times - 1)
  }

  function BackoffDelay(cfg: RateLimitConfig, failures: int): real {
    if failures <= 0 then 0.0 else MinReal(Doubled(cfg.initialBackoff, failures - 1), cfg.maxBackoff)
  }

  class SourceRateLimiter {
    const config: RateLimitConfig
    var nextAvailableAt: real
    var failureCount: nat
    var circuitOpen: bool
    var circuitOpenedAt: Option<real>

    ghost function Now(): Limiter
      reads this
    {
      Limiter(nextAvailableAt, failureCount, circuitOpen, circuitOpenedAt)
    }

    constructor (config: RateLimitConfig)
      requires config.Valid()
      ensures this.config == config && Now() == FRESH
    {
      this.config := config;
      nextAvailableAt, failureCount, circuitOpen, circuitOpenedAt := 0.0, 0, false, None;
    }

    /** The caller sleeps for the wait of an admission. */
    method WaitBeforeRequest(now: real) returns (admission: Admission)
      requires config.Valid()
      modifies this
      ensures Now() == AfterWait(config, old(Now()), now)
      ensures admission == AdmissionOf(config, old(Now()), now)
    {
      if circuitOpen {
        if circuitOpenedAt.Some? && now - circuitOpenedAt.value >= config.cooldown {
          failureCount := 0;
          circuitOpen := false;
          circuitOpenedAt := None;
        } else {
          var elapsed := if circuitOpenedAt.None? then 0.0 else now - circuitOpenedAt.value;
          return Rejected(MaxReal(config.cooldown - elapsed, 0.0));
        }
      }
      var waitSeconds := MaxReal(nextAvailableAt - now, 0.0);
      var scheduledAt := MaxReal(now, nextAvailableAt);
      nextAvailableAt := scheduledAt + 60.0 / config.requestsPerMinute as real;
      admission := Admitted(scheduledAt, waitSeconds);
    }

    method RecordSuccess()
      modifies this
      ensures Now() == AfterSuccess(old(Now()))
    {
      failureCount := 0;
      circuitOpen := false;
      circuitOpenedAt := None;
    }

    method RecordFailure(now: real)
      modifies this
      ensures Now() == AfterFailure(config, old(Now()), now)
    {
      failureCount := failureCount + 1;
      if failureCount >= config.failureThreshold {
        circuitOpen := true;
        circuitOpenedAt := Some(now);
      }
    }

    /** How long to sleep after a failure; a count of zero means the limiter's own. */
    method BackoffAfterFailure(failures: Option<int>) returns (delay: real)
      ensures delay == BackoffDelay(config, if failures.Some? && failures.value != 0
                                            then failures.value else failureCount)
    {
      var count := if failures.Some? && failures.value != 0 then failures.value else failureCount;
      if count <= 0 {
        return 0.0;
      }
      delay := MinReal(Doubled(config.initialBackoff, count - 1), config.maxBackoff);
    }
  }

  // ---------------------------------------------------------------------
  // Histories of calls
  // ---------------------------------------------------------------------

  datatype Call = WaitAt(now: real) | FailAt(now: real) | Succeed

  function Step(cfg: RateLimitConfig, s: Limiter, call: Call): Limiter
    requires cfg.Valid()
  {
    match call
    case WaitAt(now) => AfterWait(cfg, s, now)
    case FailAt(now) => AfterFailure(cfg, s, now)
    case Succeed => AfterSuccess(s)
  }

  function After(cfg: RateLimitConfig, calls: seq<Call>): Limiter
    requires cfg.Valid()
  {
    if calls == [] then FRESH else Step(cfg, After(cfg, calls[..|calls| - 1]), calls[|calls| - 1])
  }

  /** The slots given out, in order. */
  function Slots(cfg: RateLimitConfig, calls: seq<Call>): seq<real>
    requires cfg.Valid()
  {
    if calls == [] then []
    else
      var before, last := After(cfg, calls[..|calls| - 1]), calls[|calls| - 1];
      Slots(cfg, calls[..|calls| - 1])
      + if last.WaitAt? && Passes(cfg, before, last.now)
        then [AdmissionOf(cfg, before, last.now).slot] else []
  }

  // ---------------------------------------------------------------------
  // Pacing
  // ---------------------------------------------------------------------

  /** Each slot is the caller's own time, or the end of the gap behind the last slot
      when that is later. */
  lemma {:induction false} NextSlotIsDueAfterTheLast(cfg: RateLimitConfig, calls: seq<Call>)
    requires cfg.Valid()
    ensures var slots := Slots(cfg, calls);
            After(cfg, calls).nextAvailableAt == if slots == [] then 0.0 else slots[|slots| - 1] + cfg.Gap()
  {
    if calls != [] {
      NextSlotIsDueAfterTheLast(cfg, calls[..|calls| - 1]);
    }
  }

  /** The slot given to a request is never before the request nor before the end of the gap
      behind the last slot, and is one of the two; the wait lasts until exactly then. */
  lemma RequestWaitsForItsSlot(cfg: RateLimitConfig, calls: seq<Call>, now: real)
    requires cfg.Valid()
    ensures var slots := Slots(cfg, calls);
            var due := if slots == [] then 0.0 else slots[|slots| - 1] + cfg.Gap();
            var a := AdmissionOf(cfg, After(cfg, calls), now);
            && (a.Admitted? ==> now + a.wait == a.slot && a.wait >= 0.0 && a.slot >= due && a.slot in {now, due})
            && Slots(cfg, calls + [WaitAt(now)]) == slots + if a.Admitted? then [a.slot] else []
  {
    assert (calls + [WaitAt(now)])[..|calls|] == calls;
    NextSlotIsDueAfterTheLast(cfg, calls);
  }

  predicate Spaced(slots: seq<real>, gap: real) {
    forall i | 0 < i < |slots| :: slots[i] - slots[i - 1] >= gap
  }

  lemma {:induction false} SlotsAreSpaced(cfg: RateLimitConfig, calls: seq<Call>)
    requires cfg.Valid()
    ensures Spaced(Slots(cfg, calls), cfg.Gap())
  {
    if calls != [] {
      SlotsAreSpaced(cfg, calls[..|calls| - 1]);
      NextSlotIsDueAfterTheLast(cfg, calls[..|calls| - 1]);
    }
  }

  function Times(k: nat, x: real): real {
    if k == 0 then 0.0 else Times(k - 1, x) + x
  }

  lemma {:induction false} TimesIsProduct(k: nat, x: real)
    ensures Times(k, x) == k as real * x
  {
    if k > 0 {
      TimesIsProduct(k - 1, x);
      assert k as real * x == (k - 1) as real * x + x;
    }
  }

  lemma {:induction false} SpacedFurther(slots: seq<real>, gap: real, i: nat, j: nat)
    requires Spaced(slots, gap) && i <= j < |slots|
    ensures slots[j] - slots[i] >= Times(j - i, gap)
    decreases j
  {
    if i < j {
      SpacedFurther(slots, gap, i, j - 1);
    }
  }

  /** Over any history of calls, any k + 1 consecutive slots span at least k gaps. */
  lemma SlotsSpanTheirGaps(cfg: RateLimitConfig, calls: seq<Call>, i: nat, k: nat)
    requires cfg.Valid() && i + k < |Slots(cfg, calls)|
    ensures Slots(cfg, calls)[i + k] - Slots(cfg, calls)[i] >= k as real * cfg.Gap()
  {
    SlotsAreSpaced(cfg, calls);
    SpacedFurther(Slots(cfg, calls), cfg.Gap(), i, i + k);
    TimesIsProduct(k, cfg.Gap());
  }

  /** How many slots fall into a window of time. */
  function InWindow(slots: seq<real>, from: real, to: real): nat {
    if slots == [] then 0
    else InWindow(slots[..|slots| - 1], from, to) + if from <= slots[|slots| - 1] <= to then 1 else 0
  }

  /** The last slot in the window. */
  function LastInWindow(slots: seq<real>, from: real, to: real): Option<real> {
    if slots == [] then None
    else if from <= slots[|slots| - 1] <= to then Some(slots[|slots| - 1])
    else LastInWindow(slots[..|slots| - 1], from, to)
  }

  lemma SpacedFront(slots: seq<real>, gap: real)
    requires Spaced(slots, gap) && slots != []
    ensures Spaced(slots[..|slots| - 1], gap)
    ensures |slots| > 1 ==> slots[|slots| - 1] - slots[|slots| - 2] >= gap
  {
    var front := slots[..|slots| - 1];
    assert forall i | 0 <= i < |front| :: front[i] == slots[i];
  }

  lemma {:induction false} WindowFillsSlowly(slots: seq<real>, gap: real, from: real, to: real)
    requires Spaced(slots, gap) && gap > 0.0 && from <= to
    ensures var n, last := InWindow(slots, from, to), LastInWindow(slots, from, to);
            && (n == 0 <==> last.None?)
            && (n >= 1 ==> last.value <= slots[|slots| - 1] && last.value <= to
                           && Times(n - 1, gap) <= last.value - from)
    decreases |slots|
  {
    if slots != [] {
      SpacedFront(slots, gap);
      WindowFillsSlowly(slots[..|slots| - 1], gap, from, to);
    }
  }

  /** The whole gaps that fit a window of `width` seconds. */
  function WholeGaps(cfg: RateLimitConfig, width: real): int
    requires cfg.Valid()
  {
    (width * cfg.requestsPerMinute as real / 60.0).Floor
  }

  lemma GapsFit(k: nat, cfg: RateLimitConfig, width: real)
    requires cfg.Valid() && Times(k, cfg.Gap()) <= width
    ensures k <= WholeGaps(cfg, width)
  {
    var rpm := cfg.requestsPerMinute as real;
    TimesIsProduct(k, cfg.Gap());
    assert k as real * cfg.Gap() * rpm == k as real * 60.0 by {
      assert cfg.Gap() * rpm == 60.0;
    }
    Scale(k as real * cfg.Gap(), width, rpm);
    assert k as real <= width * rpm / 60.0;
  }

  /** A window of `width` seconds holds at most one slot more than the whole gaps it fits. */
  lemma WindowHoldsFewSlots(cfg: RateLimitConfig, calls: seq<Call>, from: real, width: real)
    requires cfg.Valid() && width >= 0.0
    ensures InWindow(Slots(cfg, calls), from, from + width) <= WholeGaps(cfg, width) + 1
  {
    hide Slots, Spaced, InWindow, LastInWindow, WholeGaps;
    var n := InWindow(Slots(cfg, calls), from, from + width);
    SlotsAreSpaced(cfg, calls);
    WindowFillsSlowly(Slots(cfg, calls), cfg.Gap(), from, from + width);
    GapsFit(if n >= 1 then n - 1 else 0, cfg, width);
  }

  lemma Scale(a: real, b: real, factor: real)
    requires a <= b && factor > 0.0
    ensures a * factor <= b * factor
  {
  }

  // ---------------------------------------------------------------------
  // The breaker
  // ---------------------------------------------------------------------

  /** When the last failure was recorded. */
  function LastFailure(calls: seq<Call>): Option<real> {
    if calls == [] then None
    else if calls[|calls| - 1].FailAt? then Some(calls[|calls| - 1].now)
    else LastFailure(calls[..|calls| - 1])
  }

  /** In every reachable state the breaker is open exactly when the failures have
      reached the threshold, and then it knows the time of the last failure. */
  lemma {:induction false} BreakerIsConsistent(cfg: RateLimitConfig, calls: seq<Call>)
    requires cfg.Valid()
    ensures var s := After(cfg, calls);
            && (s.circuitOpen <==> s.failureCount >= cfg.failureThreshold)
            && (s.circuitOpen <==> s.openedAt.Some?)
            && (s.circuitOpen ==> s.openedAt == LastFailure(calls))
  {
    if calls != [] {
      BreakerIsConsistent(cfg, calls[..|calls| - 1]);
    }
  }

  function Failures(calls: seq<Call>): nat {
    if calls == [] then 0 else Failures(calls[..|calls| - 1]) + if calls[|calls| - 1].FailAt? then 1 else 0
  }

  /** No success is recorded, and every request comes before the cooldown behind the
      last failure has passed. Speaks of the calls alone. */
  predicate StaysQuiet(cfg: RateLimitConfig, before: seq<Call>, calls: seq<Call>) {
    forall i | 0 <= i < |calls| ::
      match calls[i]
      case Succeed => false
      case FailAt(_) => true
      case WaitAt(now) =>
        var last := LastFailure(before + calls[..i]);
        last.Some? && now - last.value < cfg.cooldown
  }

  /** From the opening of the breaker on, nothing is admitted until a success is
      recorded or the cooldown has passed since the last recorded failure. */
  lemma {:induction false} OpenBreakerAdmitsNothing(cfg: RateLimitConfig, before: seq<Call>, calls: seq<Call>)
    requires cfg.Valid() && After(cfg, before).circuitOpen && StaysQuiet(cfg, before, calls)
    ensures var s := After(cfg, before + calls);
            && s.circuitOpen && s.openedAt == LastFailure(before + calls)
            && s.failureCount == After(cfg, before).failureCount + Failures(calls)
            && Slots(cfg, before + calls) == Slots(cfg, before)
    decreases |calls|
  {
    BreakerIsConsistent(cfg, before + calls);
    if calls == [] {
      assert before + calls == before;
    } else {
      var front := calls[..|calls| - 1];
      assert before + calls == (before + front) + [calls[|calls| - 1]];
      assert (before + calls)[..|before + calls| - 1] == before + front;
      assert StaysQuiet(cfg, before, front) by {
        assert forall i | 0 <= i < |front| :: front[i] == calls[i] && front[..i] == calls[..i];
      }
      OpenBreakerAdmitsNothing(cfg, before, front);
      assert calls[..|front|] == front;
    }
  }

  /** The first request after the cooldown is admitted. */
  lemma CooldownEndsTheWait(cfg: RateLimitConfig, before: seq<Call>, now: real)
    requires cfg.Valid() && After(cfg, before).circuitOpen
    ensures LastFailure(before).Some?
    ensures AdmissionOf(cfg, After(cfg, before), now).Admitted?
            <==> now - LastFailure(before).value >= cfg.cooldown
  {
    BreakerIsConsistent(cfg, before);
  }

  /** A rejection tells how long to stay away: the breaker admits a request exactly from the
      moment that is given, unless another failure is recorded before. */
  lemma RejectionTellsWhenItEnds(cfg: RateLimitConfig, before: seq<Call>, now: real, later: real)
    requires cfg.Valid() && AdmissionOf(cfg, After(cfg, before), now).Rejected?
    ensures var retryAfter := AdmissionOf(cfg, After(cfg, before), now).retryAfter;
            && retryAfter > 0.0
            && After(cfg, before + [WaitAt(now)]) == After(cfg, before)
            && (AdmissionOf(cfg, After(cfg, before), later).Admitted? <==> later >= now + retryAfter)
  {
    assert (before + [WaitAt(now)])[..|before|] == before;
    BreakerIsConsistent(cfg, before);
  }

  /** The failures recorded since the last success or the last request that ended a
      cooldown. Speaks of the calls alone. */
  function RecentFailures(cfg: RateLimitConfig, calls: seq<Call>): nat {
    if calls == [] then 0
    else
      var front := calls[..|calls| - 1];
      var before, last := RecentFailures(cfg, front), LastFailure(front);
      match calls[|calls| - 1]
      case Succeed => 0
      case FailAt(_) => before + 1
      case WaitAt(now) =>
        if before >= cfg.failureThreshold && last.Some? && now - last.value >= cfg.cooldown then 0 else before
  }

  /** After any history the breaker is open exactly when the recent failures have reached
      the threshold. So a request that ends the cooldown closes it as a success would, and
      one failure after it opens it again only at a threshold of one. */
  lemma {:induction false} BreakerCountsRecentFailures(cfg: RateLimitConfig, calls: seq<Call>)
    requires cfg.Valid()
    ensures After(cfg, calls).failureCount == RecentFailures(cfg, calls)
    ensures After(cfg, calls).circuitOpen <==> RecentFailures(cfg, calls) >= cfg.failureThreshold
  {
    BreakerIsConsistent(cfg, calls);
    if calls != [] {
      BreakerIsConsistent(cfg, calls[..|calls| - 1]);
      BreakerCountsRecentFailures(cfg, calls[..|calls| - 1]);
    }
  }

  predicate OnlyRequests(calls: seq<Call>) {
    forall call | call in calls :: call.WaitAt?
  }

  /** A closed breaker admits any number of requests before the first outcome: each of them
      gets a slot of its own. */
  lemma {:induction false} ClosedBreakerAdmitsAll(cfg: RateLimitConfig, before: seq<Call>, requests: seq<Call>)
    requires cfg.Valid() && !After(cfg, before).circuitOpen && OnlyRequests(requests)
    ensures !After(cfg, before + requests).circuitOpen
    ensures |Slots(cfg, before + requests)| == |Slots(cfg, before)| + |requests|
    decreases |requests|
  {
    if requests == [] {
      assert before + requests == before;
    } else {
      var front := requests[..|requests| - 1];
      assert requests[|requests| - 1] in requests && forall r | r in front :: r in requests;
      ClosedBreakerAdmitsAll(cfg, before, front);
      assert (before + requests)[..|before + requests| - 1] == before + front;
    }
  }

  /** There is no lone probe: once the cooldown has passed, the next requests are all
      admitted, however many there are. */
  lemma NoLoneProbe(cfg: RateLimitConfig, before: seq<Call>, now: real, requests: seq<Call>)
    requires cfg.Valid() && OnlyRequests(requests)
    requires var last := LastFailure(before); last.Some? && now - last.value >= cfg.cooldown
    ensures |Slots(cfg, before + [WaitAt(now)] + requests)| == |Slots(cfg, before)| + 1 + |requests|
  {
    hide Slots;
    var first := before + [WaitAt(now)];
    assert first[..|before|] == before;
    BreakerIsConsistent(cfg, before);
    assert |Slots(cfg, first)| == |Slots(cfg, before)| + 1 by { AdmittedGetsASlot(cfg, before, now); }
    ClosedBreakerAdmitsAll(cfg, first, requests);
  }

  lemma AdmittedGetsASlot(cfg: RateLimitConfig, before: seq<Call>, now: real)
    requires cfg.Valid() && Passes(cfg, After(cfg, before), now)
    ensures |Slots(cfg, before + [WaitAt(now)])| == |Slots(cfg, before)| + 1
  {
    assert (before + [WaitAt(now)])[..|before|] == before;
  }
}
