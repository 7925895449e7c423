/** The freshness sweep (src/modules/freshness/service.py). Times are in microseconds. */
module Freshness {
  import opened Wrappers

  type Time = int

  const HOUR: Time := 3_600_000_000

  datatype JobStatus = Active | Stale | Inactive | Expired | Unknown

  datatype Job = Job(platform: string, externalId: string, status: JobStatus, lastSeenAt: Time)

  datatype Policy = Policy(staleAfterHours: int, expiredAfterHours: int)

  datatype PolicyError = StaleNotPositive | ExpiredNotAfterStale

  /** A policy that passes its checks expires jobs strictly after it makes them stale. */
  function CheckPolicy(stale: int, expired: int): (r: Result<Policy, PolicyError>)
    ensures r.Success? <==> 1 <= stale < expired
    ensures r.Success? ==> r.value == Policy(stale, expired)
  {
    if stale < 1 then Failure(StaleNotPositive)
    else if expired <= stale then Failure(ExpiredNotAfterStale)
    else Success(Policy(stale, expired))
  }

  /** A policy that passed its checks. */
  predicate IsPolicy(policy: Policy) {
    CheckPolicy(policy.staleAfterHours, policy.expiredAfterHours) == Success(policy)
  }

  datatype Sweep = Sweep(platform: string, seen: set<string>, successful: bool, now: Time)

  datatype Summary = Summary(active: nat, stale: nat, expired: nat, reactivated: nat, kept: nat, total: nat)

  function Swept(policy: Policy, job: Job, s: Sweep): Job {
    if job.platform != s.platform then job
    else if job.externalId in s.seen then job.(status := Active, lastSeenAt := s.now)
    else if !s.successful then job
    else if s.now - job.lastSeenAt >= policy.expiredAfterHours * HOUR then job.(status := Expired)
    else if s.now - job.lastSeenAt >= policy.staleAfterHours * HOUR then job.(status := Stale)
    else job
  }

  function SweptAll(policy: Policy, jobs: seq<Job>, s: Sweep): seq<Job> {
    seq(|jobs|, i requires 0 <= i < |jobs| => Swept(policy, jobs[i], s))
  }

  /** How many jobs of the platform changed their status to the given one. */
  function Became(before: seq<Job>, after: seq<Job>, platform: string, status: JobStatus): nat
    requires |before| == |after|
  {
    if before == [] then 0
    else
      var n := |before| - 1;
      Became(before[..n], after[..n], platform, status)
      + if before[n].platform == platform && before[n].status != status && after[n].status == status then 1 else 0
  }

  function Count(jobs: seq<Job>, platform: string): nat {
    if jobs == [] then 0
    else Count(jobs[..|jobs| - 1], platform) + if jobs[|jobs| - 1].platform == platform then 1 else 0
  }

  function CountStatus(jobs: seq<Job>, platform: string, status: JobStatus): nat {
    if jobs == [] then 0
    else
      var last := jobs[|jobs| - 1];
      CountStatus(jobs[..|jobs| - 1], platform, status)
      + if last.platform == platform && last.status == status then 1 else 0
  }

  /** The summary counts each change by the status it led to. */
  ghost predicate Sums(before: seq<Job>, after: seq<Job>, platform: string, s: Summary) {
    && |before| == |after|
    && s.reactivated == Became(before, after, platform, Active)
    && s.stale == Became(before, after, platform, Stale)
    && s.expired == Became(before, after, platform, Expired)
    && s.reactivated + s.stale + s.expired + s.kept == s.total == Count(before, platform)
  }

  class FreshnessService {
    const policy: Policy
    var jobs: seq<Job>

    constructor (policy: Policy, jobs: seq<Job>)
      ensures this.policy == policy && this.jobs == jobs
    {
      this.policy, this.jobs := policy, jobs;
    }

    method SweepSource(s: Sweep) returns (summary: Summary)
      modifies this
      ensures jobs == SweptAll(policy, old(jobs), s)
      ensures Sums(old(jobs), jobs, s.platform, summary)
      ensures summary.active == CountStatus(jobs, s.platform, Active)
    {
      hide Became, Count, CountStatus;
      var reactivated, stale, expired, kept, total := 0, 0, 0, 0, 0;
      ghost var before := jobs;
      NothingCounted(s.platform);
      var i := 0;
      while i < |jobs|
        invariant 0 <= i <= |jobs| == |before|
        invariant forall k | 0 <= k < i :: jobs[k] == Swept(policy, before[k], s)
        invariant forall k | i <= k < |jobs| :: jobs[k] == before[k]
        invariant Sums(before[..i], jobs[..i], s.platform, Summary(0, stale, expired, reactivated, kept, total))
      {
        var job := jobs[i];
        if job.platform == s.platform {
          total := total + 1;
          if job.externalId in s.seen {
            if job.status != Active {
              reactivated := reactivated + 1;
            } else {
              kept := kept + 1;
            }
            job := job.(status := Active);
            job := job.(lastSeenAt := s.now);
          } else if !s.successful {
            kept := kept + 1;
          } else {
            var age := s.now - job.lastSeenAt;
            if age >= policy.expiredAfterHours * HOUR {
              if job.status != Expired {
                expired := expired + 1;
              } else {
                kept := kept + 1;
              }
              job := job.(status := Expired);
            } else if age >= policy.staleAfterHours * HOUR {
              if job.status != Stale {
                stale := stale + 1;
              } else {
                kept := kept + 1;
              }
              job := job.(status := Stale);
            } else {
              kept := kept + 1;
            }
          }
        }
        OneMore(before[..i], jobs[..i], before[i], job, s.platform);
        assert before[..i + 1] == before[..i] + [before[i]];
        jobs := jobs[i := job];
        assert jobs[..i + 1] == jobs[..i] + [job];
        i := i + 1;
      }
      assert before[..i] == before && jobs[..i] == jobs;
      var active := CountActive(s.platform);
      summary := Summary(active, stale, expired, reactivated, kept, total);
    }

    method CountActive(platform: string) returns (active: nat)
      ensures active == CountStatus(jobs, platform, Active)
    {
      active := 0;
      var i := 0;
      while i < |jobs|
        invariant 0 <= i <= |jobs| && active == CountStatus(jobs[..i], platform, Active)
      {
        assert jobs[..i + 1][..i] == jobs[..i];
        if jobs[i].platform == platform && jobs[i].status == Active {
          active := active + 1;
        }
        i := i + 1;
      }
      assert jobs[..i] == jobs;
    }
  }

  lemma NothingCounted(platform: string)
    ensures Sums([], [], platform, Summary(0, 0, 0, 0, 0, 0))
  {
  }

  lemma OneMore(before: seq<Job>, after: seq<Job>, b: Job, a: Job, platform: string)
    requires |before| == |after|
    ensures forall status :: Became(before + [b], after + [a], platform, status)
                             == Became(before, after, platform, status)
                                + (if b.platform == platform && b.status != status && a.status == status then 1 else 0)
    ensures Count(before + [b], platform) == Count(before, platform) + (if b.platform == platform then 1 else 0)
  {
    assert (before + [b])[..|before|] == before && (after + [a])[..|after|] == after;
  }

  // ---------------------------------------------------------------------
  // A whole history of sweeps
  // ---------------------------------------------------------------------

  function Run(policy: Policy, job: Job, sweeps: seq<Sweep>): Job {
    if sweeps == [] then job
    else Swept(policy, Run(policy, job, sweeps[..|sweeps| - 1]), sweeps[|sweeps| - 1])
  }

  predicate Saw(job: Job, s: Sweep) {
    s.platform == job.platform && job.externalId in s.seen
  }

  predicate Missed(job: Job, s: Sweep) {
    s.platform == job.platform && job.externalId !in s.seen && s.successful
  }

  /** When a sweep last saw the job. */
  function LastSeen(job: Job, sweeps: seq<Sweep>): Option<Time> {
    if sweeps == [] then None
    else if Saw(job, sweeps[|sweeps| - 1]) then Some(sweeps[|sweeps| - 1].now)
    else LastSeen(job, sweeps[..|sweeps| - 1])
  }

  /** When a successful sweep last missed the job, if none has seen it since. */
  function LastMissed(job: Job, sweeps: seq<Sweep>): Option<Time> {
    if sweeps == [] || Saw(job, sweeps[|sweeps| - 1]) then None
    else if Missed(job, sweeps[|sweeps| - 1]) then Some(sweeps[|sweeps| - 1].now)
    else LastMissed(job, sweeps[..|sweeps| - 1])
  }

  predicate ClockAdvances(sweeps: seq<Sweep>) {
    forall i, j | 0 <= i < j < |sweeps| :: sweeps[i].now <= sweeps[j].now
  }

  lemma {:induction false} MissedInTime(job: Job, sweeps: seq<Sweep>)
    requires ClockAdvances(sweeps) && sweeps != []
    ensures var m := LastMissed(job, sweeps); m.Some? ==> m.value <= sweeps[|sweeps| - 1].now
  {
    if |sweeps| > 1 {
      var front := sweeps[..|sweeps| - 1];
      assert front[|front| - 1] == sweeps[|sweeps| - 2];
      MissedInTime(job, front);
    }
  }

  /** Whatever the history, a job's last sighting and status depend only on when it was
      last seen and on the latest successful sweep that has missed it since. In
      particular failed runs never age a job. */
  lemma {:induction false} HistoryHasClosedForm(policy: Policy, job: Job, sweeps: seq<Sweep>)
    requires IsPolicy(policy) && ClockAdvances(sweeps)
    ensures var end := Run(policy, job, sweeps);
            var seen, missed := LastSeen(job, sweeps), LastMissed(job, sweeps);
            var since := if seen.Some? then seen.value else job.lastSeenAt;
            var status := if seen.Some? then Active else job.status;
            && end.lastSeenAt == since
            && end.status == (
                 if missed.None? then status
                 else if missed.value - since >= policy.expiredAfterHours * HOUR then Expired
                 else if missed.value - since >= policy.staleAfterHours * HOUR then Stale
                 else status)
            && end.platform == job.platform && end.externalId == job.externalId
  {
    if sweeps != [] {
      var front := sweeps[..|sweeps| - 1];
      HistoryHasClosedForm(policy, job, front);
      if front != [] {
        MissedInTime(job, front);
        assert front[|front| - 1] == sweeps[|sweeps| - 2];
      }
    }
  }

  /** Repeating a sweep changes nothing any more. */
  lemma SweepIsIdempotent(policy: Policy, jobs: seq<Job>, s: Sweep, summary: Summary)
    requires IsPolicy(policy)
    requires Sums(SweptAll(policy, jobs, s), SweptAll(policy, SweptAll(policy, jobs, s), s), s.platform, summary)
    ensures SweptAll(policy, SweptAll(policy, jobs, s), s) == SweptAll(policy, jobs, s)
    ensures summary.reactivated == summary.stale == summary.expired == 0
    ensures summary.kept == summary.total
  {
    var once := SweptAll(policy, jobs, s);
    assert SweptAll(policy, once, s) == once;
    NothingBecomes(once, s.platform);
  }

  lemma {:induction false} NothingBecomes(jobs: seq<Job>, platform: string)
    ensures forall status :: Became(jobs, jobs, platform, status) == 0
  {
    if jobs != [] {
      NothingBecomes(jobs[..|jobs| - 1], platform);
    }
  }
}
