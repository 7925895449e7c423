/** What one request of the source client (src/shared/http/client.py) does to the limiter,
    told by the network's replies and the limiter's history alone. */
module HttpHistory {
  import opened Wrappers
  import opened RateLimit
  import opened HttpClient

  /** An attempt: when it asked the limiter, whether the breaker turned it away, and when it
      was over. */
  datatype Try = Try(at: real, shut: bool, end: real)

  /** The limiter is asked once per attempt. A failure is recorded exactly for a rejection, at
      once, and for a time-out, transport error or retriable status, when that is met; a
      success exactly for a delivered body, well formed or not. */
  function CallsOf(t: Try, reply: Reply): seq<Call> {
    if t.shut then [WaitAt(t.at), FailAt(t.at)]
    else
      match reply
      case Transient => [WaitAt(t.at), FailAt(t.end)]
      case Fatal => [WaitAt(t.at)]
      case Malformed => [WaitAt(t.at), Succeed]
      case Delivered => [WaitAt(t.at), Succeed]
  }

  /** Attempts are numbered from one. */
  function AllCalls(tries: seq<Try>, net: nat -> Attempt): seq<Call> {
    if tries == [] then []
    else AllCalls(tries[..|tries| - 1], net) + CallsOf(tries[|tries| - 1], net(|tries|).reply)
  }

  function Sent(tries: seq<Try>): nat {
    if tries == [] then 0 else Sent(tries[..|tries| - 1]) + if tries[|tries| - 1].shut then 0 else 1
  }

  function ErrorOf(t: Try, reply: Reply): Option<Cause> {
    if t.shut then Some(BreakerOpen)
    else
      match reply
      case Transient => Some(Unreachable)
      case Fatal => Some(ErrorStatus)
      case Malformed => Some(BadBody)
      case Delivered => None
  }

  predicate TriedAgain(t: Try, reply: Reply) { t.shut || reply.Transient? }

  /** The breaker is open behind these calls, and its cooldown is not over. */
  predicate ShutBehind(cfg: RateLimitConfig, calls: seq<Call>, now: real) {
    && RecentFailures(cfg, calls) >= cfg.failureThreshold
    && LastFailure(calls).Some? && now - LastFailure(calls).value < cfg.cooldown
  }

  /** When the next slot is due behind these calls. */
  function Due(cfg: RateLimitConfig, calls: seq<Call>): real
    requires cfg.Valid()
  {
    var slots := Slots(cfg, calls);
    if slots == [] then 0.0 else slots[|slots| - 1] + cfg.Gap()
  }

  /** The attempt that starts behind these calls: it is turned away by an open breaker, and
      otherwise goes out in its slot. */
  function TryAt(cfg: RateLimitConfig, before: seq<Call>, now: real, a: Attempt): Try
    requires cfg.Valid()
  {
    var shut := ShutBehind(cfg, before, now);
    Try(now, shut, if shut then now else MaxReal(now, Due(cfg, before)) + a.latency)
  }

  function Noted(cfg: RateLimitConfig, once: (Option<Cause>, Going)): Going
    requires cfg.Valid()
  {
    match once.0
    case None => once.1
    case Some(cause) => Recorded(cfg, once.1, cause)
  }

  lemma PassesUnlessShut(cfg: RateLimitConfig, before: seq<Call>, now: real)
    requires cfg.Valid()
    ensures Passes(cfg, After(cfg, before), now) <==> !ShutBehind(cfg, before, now)
    ensures After(cfg, before).nextAvailableAt == Due(cfg, before)
    ensures After(cfg, before).failureCount == RecentFailures(cfg, before)
  {
    hide After, RecentFailures, Slots;
    BreakerIsConsistent(cfg, before);
    BreakerCountsRecentFailures(cfg, before);
    NextSlotIsDueAfterTheLast(cfg, before);
  }

  /** One attempt: what it adds to the calls on the limiter, the error it meets and the time it
      ends, by its reply and by whether the breaker turns it away. */
  lemma {:induction false} AttemptIsTold(cfg: RateLimitConfig, g: Going, a: Attempt, t: Try)
    requires cfg.Valid() && g.limiter.Some? && t.at == g.clock
    requires t.shut <==> !Passes(cfg, g.limiter.value, g.clock)
    requires t.end == if t.shut then t.at else MaxReal(t.at, g.limiter.value.nextAvailableAt) + a.latency
    ensures var once := Once(cfg, g, a);
            var after := Noted(cfg, once);
            && once.0 == ErrorOf(t, a.reply) && after.calls == g.calls + CallsOf(t, a.reply)
            && after.clock == t.end && after.slept == g.slept
            && after.requests == g.requests + (if t.shut then 0 else 1)
  {
    hide Passes, Step;
  }

  /** The limiter moves by these calls. */
  lemma {:induction false} AttemptIsExplained(cfg: RateLimitConfig, before: seq<Call>, g: Going, a: Attempt)
    requires cfg.Valid() && Explained(cfg, before, g)
    ensures Explained(cfg, before, Noted(cfg, Once(cfg, g, a)))
  {
    hide After, Step, Passes, AdmissionOf;
    var once := Once(cfg, g, a);
    var waited := Called(cfg, g, WaitAt(g.clock));
    CallExplained(cfg, before, g, WaitAt(g.clock));
    CallExplained(cfg, before, waited.(clock := once.1.clock, requests := once.1.requests), Succeed);
    CallExplained(cfg, before, once.1, FailAt(once.1.clock));
  }

  // ---------------------------------------------------------------------
  // A whole request
  // ---------------------------------------------------------------------

  /** The attempt behind these ones starts at `now`, after the backoff that the failures up
      to it call for. */
  predicate StartsAt(c: ClientConfig, before: seq<Call>, tries: seq<Try>, start: real, net: nat -> Attempt, now: real) {
    if tries == [] then now == start
    else
      var failures := RecentFailures(c.limit, before + AllCalls(tries, net));
      now == tries[|tries| - 1].end + BackoffDelay(c.limit, failures)
  }

  /** The attempt that may follow these ones. */
  ghost predicate Follows(c: ClientConfig, before: seq<Call>, start: real, net: nat -> Attempt, tries: seq<Try>, t: Try)
    requires c.limit.Valid()
  {
    && t == TryAt(c.limit, before + AllCalls(tries, net), t.at, net(|tries| + 1))
    && StartsAt(c, before, tries, start, net, t.at)
    && (tries != [] ==> TriedAgain(tries[|tries| - 1], net(|tries|).reply))
  }

  /** Attempts one after the other, each but the last tried again. */
  ghost predicate AreTries(c: ClientConfig, before: seq<Call>, start: real, net: nat -> Attempt, tries: seq<Try>)
    requires c.limit.Valid()
  {
    forall i | 0 <= i < |tries| :: Follows(c, before, start, net, tries[..i], tries[i])
  }

  /** The account of a request that made these attempts. */
  ghost predicate IsAccountOf(c: ClientConfig, before: seq<Call>, start: real, net: nat -> Attempt, tries: seq<Try>,
                              f: Fetched)
    requires c.limit.Valid()
  {
    && 1 <= |tries| == f.attempts <= c.maxRetries + 1
    && AreTries(c, before, start, net, tries)
    && (|tries| <= c.maxRetries ==> !TriedAgain(tries[|tries| - 1], net(|tries|).reply))
    && f.error == ErrorOf(tries[|tries| - 1], net(|tries|).reply)
    && f.end.clock == tries[|tries| - 1].end
    && f.end.calls == AllCalls(tries, net)
    && f.end.requests == Sent(tries)
    && f.end.limiter == Some(After(c.limit, before + f.end.calls))
  }

  lemma TriesSnoc(c: ClientConfig, before: seq<Call>, start: real, net: nat -> Attempt, tries: seq<Try>, t: Try)
    requires c.limit.Valid()
    ensures AreTries(c, before, start, net, tries + [t])
            <==> AreTries(c, before, start, net, tries) && Follows(c, before, start, net, tries, t)
  {
    hide Follows;
    var all := tries + [t];
    assert all[..|tries|] == tries && all[|tries|] == t;
    forall i | 0 <= i < |tries| ensures all[..i] == tries[..i] && all[i] == tries[i] {
    }
  }

  lemma CallsSnoc(tries: seq<Try>, t: Try, net: nat -> Attempt)
    ensures AllCalls(tries + [t], net) == AllCalls(tries, net) + CallsOf(t, net(|tries| + 1).reply)
    ensures Sent(tries + [t]) == Sent(tries) + if t.shut then 0 else 1
  {
    assert (tries + [t])[..|tries|] == tries;
  }

  lemma {:induction false} AttemptsAreTold(c: ClientConfig, before: seq<Call>, start: real, g: Going,
                                           net: nat -> Attempt, tries: seq<Try>)
    returns (all: seq<Try>)
    requires c.limit.Valid() && |tries| <= c.maxRetries
    requires AreTries(c, before, start, net, tries)
    requires tries != [] ==> TriedAgain(tries[|tries| - 1], net(|tries|).reply)
    requires StartsAt(c, before, tries, start, net, g.clock)
    requires g.calls == AllCalls(tries, net) && g.requests == Sent(tries) && Explained(c.limit, before, g)
    ensures IsAccountOf(c, before, start, net, all, Retry(c, g, |tries| + 1, net))
    decreases c.maxRetries - |tries|
  {
    hide Once, Recorded, AreTries, AllCalls, Sent, After, RecentFailures, BackoffDelay, Due, ShutBehind, Passes,
         CallsOf;
    var attempt := |tries| + 1;
    var a := net(attempt);
    var once := Once(c.limit, g, a);
    var t := TryAt(c.limit, before + g.calls, g.clock, a);
    PassesUnlessShut(c.limit, before + g.calls, g.clock);
    AttemptIsTold(c.limit, g, a, t);
    AttemptIsExplained(c.limit, before, g, a);
    TriesSnoc(c, before, start, net, tries, t);
    CallsSnoc(tries, t, net);
    var grown, after := tries + [t], Noted(c.limit, once);
    if once.0.Some? && Retryable(once.0.value) && attempt <= c.maxRetries {
      PassesUnlessShut(c.limit, before + after.calls, 0.0);
      all := AttemptsAreTold(c, before, start, Rested(c, after), net, grown);
    } else {
      all := grown;
    }
  }

  /** Every request to a source is a list of attempts, each told by the network's reply to it
      and by the limiter's history up to it: which calls it makes on the limiter, when, and
      whether it is tried again. The account is that of the retry loop. */
  lemma RequestFollowsItsReplies(c: ClientConfig, before: seq<Call>, now: real, net: nat -> Attempt)
    returns (tries: seq<Try>)
    requires c.limit.Valid()
    ensures IsAccountOf(c, before, now, net, tries, Retry(c, Ready(Some(After(c.limit, before)), now), 1, net))
  {
    hide Retry, IsAccountOf, After;
    assert AreTries(c, before, now, net, []);
    assert AllCalls([], net) == [] && Sent([]) == 0;
    assert before + [] == before;
    tries := AttemptsAreTold(c, before, now, Ready(Some(After(c.limit, before)), now), net, []);
  }

  // ---------------------------------------------------------------------
  // A source that does not answer
  // ---------------------------------------------------------------------

  /** The recent failures behind n attempts that all failed: one more each time, counted anew
      when the backoff was as long as an open breaker's cooldown. */
  function FailuresAfter(c: ClientConfig, failures: nat, n: nat): nat {
    if n == 0 then failures
    else
      var f := FailuresAfter(c, failures, n - 1);
      1 + if f >= c.limit.failureThreshold && BackoffDelay(c.limit, f) >= c.limit.cooldown then 0 else f
  }

  lemma CallsBehind(cfg: RateLimitConfig, calls: seq<Call>, at: real, end: real)
    ensures var f := RecentFailures(cfg, calls);
            var reset := f >= cfg.failureThreshold && LastFailure(calls).Some?
                         && at - LastFailure(calls).value >= cfg.cooldown;
            && RecentFailures(cfg, calls + [WaitAt(at), FailAt(end)]) == 1 + (if reset then 0 else f)
            && LastFailure(calls + [WaitAt(at), FailAt(end)]) == Some(end)
  {
    var all := calls + [WaitAt(at), FailAt(end)];
    assert all[..|all| - 1] == calls + [WaitAt(at)];
    assert (calls + [WaitAt(at)])[..|calls|] == calls;
  }

  lemma TryFails(t: Try, reply: Reply)
    requires TriedAgain(t, reply)
    ensures CallsOf(t, reply) == [WaitAt(t.at), FailAt(if t.shut then t.at else t.end)]
  {
  }

  /** An attempt behind failed ones that fails as well. */
  lemma OneMoreFailure(c: ClientConfig, before: seq<Call>, start: real, net: nat -> Attempt, tries: seq<Try>, t: Try)
    requires c.limit.Valid() && Follows(c, before, start, net, tries, t) && TriedAgain(t, net(|tries| + 1).reply)
    requires var calls := before + AllCalls(tries, net);
             if tries == [] then RecentFailures(c.limit, calls) < c.limit.failureThreshold
             else LastFailure(calls) == Some(tries[|tries| - 1].end)
    ensures var calls := before + AllCalls(tries, net);
            var f := RecentFailures(c.limit, calls);
            var more := calls + CallsOf(t, net(|tries| + 1).reply);
            && LastFailure(more) == Some(t.end)
            && RecentFailures(c.limit, more)
               == 1 + if f >= c.limit.failureThreshold && BackoffDelay(c.limit, f) >= c.limit.cooldown then 0 else f
  {
    hide RecentFailures, LastFailure, BackoffDelay, Due, AllCalls, CallsOf, ShutBehind;
    var end := if t.shut then t.at else t.end;
    TryFails(t, net(|tries| + 1).reply);
    CallsBehind(c.limit, before + AllCalls(tries, net), t.at, end);
  }

  lemma {:induction false} FailuresAreCounted(c: ClientConfig, before: seq<Call>, start: real, net: nat -> Attempt,
                                              tries: seq<Try>)
    requires c.limit.Valid() && AreTries(c, before, start, net, tries)
    requires RecentFailures(c.limit, before) < c.limit.failureThreshold
    requires tries != [] ==> TriedAgain(tries[|tries| - 1], net(|tries|).reply)
    ensures var calls := before + AllCalls(tries, net);
            && RecentFailures(c.limit, calls) == FailuresAfter(c, RecentFailures(c.limit, before), |tries|)
            && (tries != [] ==> LastFailure(calls) == Some(tries[|tries| - 1].end))
    decreases |tries|
  {
    hide RecentFailures, LastFailure, BackoffDelay, AreTries, Follows, CallsOf;
    if tries == [] {
      assert before + [] == before;
    } else {
      var front, last := tries[..|tries| - 1], tries[|tries| - 1];
      assert tries == front + [last];
      TriesSnoc(c, before, start, net, front, last);
      assert front != [] ==> TriedAgain(front[|front| - 1], net(|front|).reply) by {
        FollowsMeans(c, before, start, net, front, last);
      }
      FailuresAreCounted(c, before, start, net, front);
      if front == [] {
        assert before + [] == before;
      }
      OneMoreFailure(c, before, start, net, front, last);
      assert before + AllCalls(tries, net) == before + AllCalls(front, net) + CallsOf(last, net(|tries|).reply);
    }
  }

  lemma FollowsMeans(c: ClientConfig, before: seq<Call>, start: real, net: nat -> Attempt, tries: seq<Try>, t: Try)
    requires c.limit.Valid() && Follows(c, before, start, net, tries, t)
    ensures tries != [] ==> TriedAgain(tries[|tries| - 1], net(|tries|).reply)
  {
  }

  ghost predicate NeverAnswers(c: ClientConfig, net: nat -> Attempt) {
    forall i | 1 <= i <= c.maxRetries + 1 :: net(i).reply.Transient?
  }

  /** A request that meets a closed breaker and a source that never answers makes all its
      attempts, and leaves the breaker open exactly when the failures counted through them
      have reached the threshold. */
  lemma UnansweredRequestCounts(c: ClientConfig, before: seq<Call>, now: real, net: nat -> Attempt)
    requires c.limit.Valid() && NeverAnswers(c, net)
    requires RecentFailures(c.limit, before) < c.limit.failureThreshold
    ensures var f := Retry(c, Ready(Some(After(c.limit, before)), now), 1, net);
            var failures := FailuresAfter(c, RecentFailures(c.limit, before), c.maxRetries + 1);
            && f.attempts == c.maxRetries + 1 && f.error.Some? && Retryable(f.error.value)
            && f.end.limiter.Some?
            && RecentFailures(c.limit, before + f.end.calls) == failures == f.end.limiter.value.failureCount
            && (f.end.limiter.value.circuitOpen <==> failures >= c.limit.failureThreshold)
  {
    hide Retry, After, RecentFailures, FailuresAfter, AreTries, AllCalls, Sent;
    var tries := RequestFollowsItsReplies(c, before, now, net);
    assert net(|tries|).reply.Transient?;
    FailuresAreCounted(c, before, now, net, tries);
    BreakerCountsRecentFailures(c.limit, before + AllCalls(tries, net));
  }

  lemma {:induction false} FailuresAdd(c: ClientConfig, failures: nat, n: nat, most: nat)
    requires c.limit.Valid() && failures + n <= most
    requires most <= c.limit.failureThreshold || BackoffDelay(c.limit, most - 1) < c.limit.cooldown
    ensures FailuresAfter(c, failures, n) == failures + n
  {
    hide BackoffDelay;
    if n > 0 {
      FailuresAdd(c, failures, n - 1, most);
      if failures + n - 1 >= c.limit.failureThreshold {
        BackoffGrows(c.limit, failures + n - 1, most - 1);
      }
    }
  }

  /** So as long as no backoff of the request lasts as long as the cooldown, the breaker opens
      exactly when the recent failures and the attempts together reach the threshold. */
  lemma UnansweredRequestOpensBreaker(c: ClientConfig, before: seq<Call>, now: real, net: nat -> Attempt)
    requires c.limit.Valid() && NeverAnswers(c, net)
    requires RecentFailures(c.limit, before) < c.limit.failureThreshold
    requires var most := RecentFailures(c.limit, before) + c.maxRetries;
             most < c.limit.failureThreshold || BackoffDelay(c.limit, most) < c.limit.cooldown
    ensures var f := Retry(c, Ready(Some(After(c.limit, before)), now), 1, net);
            && f.end.limiter.Some?
            && (f.end.limiter.value.circuitOpen
                <==> RecentFailures(c.limit, before) + c.maxRetries + 1 >= c.limit.failureThreshold)
  {
    hide Retry, After, RecentFailures, BackoffDelay, NeverAnswers;
    var failures := RecentFailures(c.limit, before);
    UnansweredRequestCounts(c, before, now, net);
    FailuresAdd(c, failures, c.maxRetries + 1, failures + c.maxRetries + 1);
  }
}
