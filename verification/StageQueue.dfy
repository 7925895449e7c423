/** The stage-job queue (src/modules/queue/jobs.py) and its worker
    (src/modules/queue/worker.py). Rows keep the position at which they were inserted. */
module StageQueue {
  import opened Wrappers

  datatype JobType = ScrapeSource | NormalizeRaw | EnrichBatch | SyncBatch | NotifyHandoff

  datatype Status = Pending | Running | Completed | Failed | DeadLetter

  type Time = int

  datatype QueueFailure = QueueFailure(category: string, message: string, retryDelaySeconds: int)

  datatype StageJob = StageJob(
    jobType: JobType, status: Status, attemptCount: nat, maxAttempts: int, availableAt: Time,
    createdAt: Time, lockedAt: Option<Time>, completedAt: Option<Time>, error: Option<(string, string)>)

  const MAX_MESSAGE := 500

  datatype QueueError = InvalidMaxAttempts

  predicate IsOpen(job: StageJob) { job.status.Pending? || job.status.Failed? }

  predicate IsTerminal(job: StageJob) { job.status.Completed? || job.status.DeadLetter? }

  predicate Claimable(job: StageJob, jobType: JobType, now: Time) {
    job.jobType == jobType && IsOpen(job) && job.availableAt <= now && job.attemptCount < job.maxAttempts
  }

  /** The order in which the queue is served. */
  predicate NotAfter(a: StageJob, b: StageJob) {
    a.availableAt < b.availableAt || (a.availableAt == b.availableAt && a.createdAt <= b.createdAt)
  }

  /** A row that the claim query may return: claimable, and no claimable row before it. */
  ghost predicate IsNext(rows: seq<StageJob>, jobType: JobType, now: Time, i: nat) {
    && i < |rows| && Claimable(rows[i], jobType, now)
    && forall j | 0 <= j < |rows| && Claimable(rows[j], jobType, now) :: NotAfter(rows[i], rows[j])
  }

  function Fresh(jobType: JobType, maxAttempts: int, availableAt: Time, now: Time): StageJob {
    StageJob(jobType, Pending, 0, maxAttempts, availableAt, now, None, None, None)
  }

  function Claimed(job: StageJob, now: Time): StageJob {
    job.(status := Running, lockedAt := Some(now), error := None)
  }

  function Done(job: StageJob, now: Time): StageJob {
    job.(status := Completed, completedAt := Some(now), error := None)
  }

  function Truncated(message: string): string {
    if |message| <= MAX_MESSAGE then message else message[..MAX_MESSAGE]
  }

  function Broken(job: StageJob, failure: QueueFailure, now: Time): StageJob {
    var failed := job.(attemptCount := job.attemptCount + 1, lockedAt := None,
                       error := Some((failure.category, Truncated(failure.message))));
    if failed.attemptCount >= failed.maxAttempts
    then failed.(status := DeadLetter, completedAt := Some(now))
    else failed.(status := Failed, availableAt := now + failure.retryDelaySeconds)
  }

  /** A claim is spent when its attempt fails; it is held while the job runs and kept
      once the job completes. */
  function Claims(job: StageJob): nat {
    job.attemptCount + if job.status.Running? || job.status.Completed? then 1 else 0
  }

  /** What the other columns say in each status. */
  predicate Consistent(job: StageJob) {
    match job.status
    case Pending => job.attemptCount == 0 && job.lockedAt.None? && job.completedAt.None? && job.error.None?
    case Running => job.lockedAt.Some? && job.completedAt.None? && job.error.None?
    case Completed => job.lockedAt.Some? && job.completedAt.Some? && job.error.None?
    case Failed => job.attemptCount >= 1 && job.lockedAt.None? && job.completedAt.None? && job.error.Some?
    case DeadLetter => job.lockedAt.None? && job.completedAt.Some? && job.error.Some?
  }

  predicate RowValid(job: StageJob) {
    && job.maxAttempts >= 1
    && Claims(job) <= job.maxAttempts
    && (job.status.DeadLetter? <==> job.attemptCount == job.maxAttempts)
    && Consistent(job)
  }

  class StageJobRepository {
    var rows: seq<StageJob>
    /** How often each row has been claimed. */
    ghost var claims: seq<nat>

    ghost predicate Valid()
      reads this
    {
      && |claims| == |rows|
      && forall i | 0 <= i < |rows| :: RowValid(rows[i]) && claims[i] == Claims(rows[i])
    }

    constructor ()
      ensures Valid() && rows == []
    {
      rows, claims := [], [];
    }

    method Enqueue(jobType: JobType, maxAttempts: int, availableAt: Option<Time>, now: Time)
      returns (r: Result<nat, QueueError>)
      modifies this
      ensures old(Valid()) ==> Valid()
      ensures maxAttempts < 1 ==> r == Failure(InvalidMaxAttempts) && rows == old(rows) && claims == old(claims)
      ensures maxAttempts >= 1 ==>
                && r == Success(|old(rows)|)
                && rows == old(rows)
                           + [Fresh(jobType, maxAttempts, if availableAt.Some? then availableAt.value else now, now)]
                && claims == old(claims) + [0]
    {
      if maxAttempts < 1 {
        return Failure(InvalidMaxAttempts);
      }
      var start := if availableAt.Some? then availableAt.value else now;
      r := Success(|rows|);
      rows := rows + [Fresh(jobType, maxAttempts, start, now)];
      claims := claims + [0];
    }

    method ClaimNext(jobType: JobType, now: Time) returns (claimed: Option<nat>)
      requires Valid()
      modifies this
      ensures Valid()
      ensures claimed.None? ==> rows == old(rows) && claims == old(claims)
                                && forall j | 0 <= j < |rows| :: !Claimable(rows[j], jobType, now)
      ensures claimed.Some? ==>
                && IsNext(old(rows), jobType, now, claimed.value)
                && rows == old(rows)[claimed.value := Claimed(old(rows)[claimed.value], now)]
                && claims == old(claims)[claimed.value := old(claims)[claimed.value] + 1]
    {
      claimed := None;
      var i := 0;
      while i < |rows|
        invariant 0 <= i <= |rows|
        invariant claimed.None? ==> forall j | 0 <= j < i :: !Claimable(rows[j], jobType, now)
        invariant claimed.Some? ==>
                    && claimed.value < i && Claimable(rows[claimed.value], jobType, now)
                    && forall j | 0 <= j < i && Claimable(rows[j], jobType, now) ::
                         NotAfter(rows[claimed.value], rows[j])
      {
        if Claimable(rows[i], jobType, now) && (claimed.None? || !NotAfter(rows[claimed.value], rows[i])) {
          claimed := Some(i);
        }
        i := i + 1;
      }
      if claimed.Some? {
        var k := claimed.value;
        rows := rows[k := Claimed(rows[k], now)];
        claims := claims[k := claims[k] + 1];
      }
    }

    method Complete(i: nat, now: Time)
      requires i < |rows|
      modifies this`rows
      ensures rows == old(rows)[i := Done(old(rows)[i], now)]
      ensures old(Valid()) && old(rows)[i].status.Running? ==> Valid()
    {
      rows := rows[i := Done(rows[i], now)];
    }

    method Fail(i: nat, failure: QueueFailure, now: Time)
      requires i < |rows|
      modifies this`rows
      ensures rows == old(rows)[i := Broken(old(rows)[i], failure, now)]
      ensures old(Valid()) && old(rows)[i].status.Running? ==> Valid()
      ensures forall t :: Claimable(rows[i], old(rows)[i].jobType, t)
                          <==> old(rows)[i].attemptCount + 1 < old(rows)[i].maxAttempts
                               && t >= now + failure.retryDelaySeconds
    {
      var job := rows[i];
      job := job.(attemptCount := job.attemptCount + 1);
      job := job.(error := Some((failure.category, Truncated(failure.message))));
      job := job.(lockedAt := None);
      if job.attemptCount >= job.maxAttempts {
        job := job.(status := DeadLetter);
        job := job.(completedAt := Some(now));
      } else {
        job := job.(status := Failed);
        job := job.(availableAt := now + failure.retryDelaySeconds);
      }
      rows := rows[i := job];
    }

    /** Claims a job at `now`, runs its handler, and records at `later` how that ended. */
    method ProcessNext(jobType: JobType, now: Time, handler: nat -> Option<QueueFailure>, later: Time)
      returns (processed: Option<nat>)
      requires Valid()
      modifies this
      ensures Valid()
      ensures processed.None? ==> rows == old(rows) && forall j | 0 <= j < |rows| :: !Claimable(rows[j], jobType, now)
      ensures processed.Some? ==>
                IsNext(old(rows), jobType, now, processed.value)
                && rows == AfterTurn(old(rows), Turn(processed.value, now, later, handler(processed.value)))
    {
      processed := ClaimNext(jobType, now);
      if processed.None? {
        return;
      }
      var job := processed.value;
      match handler(job) {
        case Some(failure) => Fail(job, QueueFailure(failure.category, failure.message, 0), later);
        case None => Complete(job, later);
      }
    }
  }

  // ---------------------------------------------------------------------
  // Processing over and over
  // ---------------------------------------------------------------------

  /** One job processed: which one, when it was claimed and finished, and how it failed. */
  datatype Turn = Turn(job: nat, claimedAt: Time, finishedAt: Time, failure: Option<QueueFailure>)

  function AfterTurn(rows: seq<StageJob>, t: Turn): seq<StageJob>
    requires t.job < |rows|
  {
    var running := Claimed(rows[t.job], t.claimedAt);
    rows[t.job := match t.failure
                  case Some(f) => Broken(running, QueueFailure(f.category, f.message, 0), t.finishedAt)
                  case None => Done(running, t.finishedAt)]
  }

  /** Turns that the worker can take one after the other, on a clock that never goes back. */
  ghost predicate CanTake(rows: seq<StageJob>, jobType: JobType, from: Time, turns: seq<Turn>)
    decreases |turns|
  {
    turns != [] ==>
      var t := turns[0];
      && IsNext(rows, jobType, t.claimedAt, t.job)
      && from <= t.claimedAt <= t.finishedAt
      && CanTake(AfterTurn(rows, t), jobType, t.finishedAt, turns[1..])
  }

  function AfterTurns(rows: seq<StageJob>, turns: seq<Turn>): seq<StageJob>
    requires forall t | t in turns :: t.job < |rows|
    decreases |turns|
  {
    if turns == [] then rows else AfterTurns(AfterTurn(rows, turns[0]), turns[1..])
  }

  /** The attempts that an open job has left. */
  function Room(job: StageJob, jobType: JobType): nat {
    if job.jobType == jobType && IsOpen(job) && job.attemptCount <= job.maxAttempts
    then job.maxAttempts - job.attemptCount else 0
  }

  function Budget(rows: seq<StageJob>, jobType: JobType): nat {
    if rows == [] then 0 else Room(rows[0], jobType) + Budget(rows[1..], jobType)
  }

  lemma {:induction false} BudgetUpdate(rows: seq<StageJob>, jobType: JobType, i: nat, job: StageJob)
    requires i < |rows|
    ensures Budget(rows[i := job], jobType) == Budget(rows, jobType) - Room(rows[i], jobType) + Room(job, jobType)
    decreases |rows|
  {
    var updated := rows[i := job];
    if i == 0 {
      assert updated[1..] == rows[1..];
    } else {
      assert updated[1..] == rows[1..][i - 1 := job];
      BudgetUpdate(rows[1..], jobType, i - 1, job);
    }
  }

  predicate RowsValid(rows: seq<StageJob>) {
    forall i | 0 <= i < |rows| :: RowValid(rows[i])
  }

  /** Each turn keeps the rows valid and uses up part of the budget. */
  lemma TurnSpendsBudget(rows: seq<StageJob>, jobType: JobType, t: Turn)
    requires RowsValid(rows) && IsNext(rows, jobType, t.claimedAt, t.job)
    ensures RowsValid(AfterTurn(rows, t))
    ensures Budget(AfterTurn(rows, t), jobType) < Budget(rows, jobType)
  {
    BudgetUpdate(rows, jobType, t.job, AfterTurn(rows, t)[t.job]);
  }

  lemma TurnsFit(rows: seq<StageJob>, jobType: JobType, from: Time, turns: seq<Turn>)
    requires CanTake(rows, jobType, from, turns)
    ensures forall t | t in turns :: t.job < |rows|
    decreases |turns|
  {
    if turns != [] {
      TurnsFit(AfterTurn(rows, turns[0]), jobType, turns[0].finishedAt, turns[1..]);
      assert turns == [turns[0]] + turns[1..];
    }
  }

  /** However its handlers behave, the worker cannot process jobs of one type more
      often than their remaining attempts add up to. */
  lemma {:induction false} ProcessingEnds(rows: seq<StageJob>, jobType: JobType, from: Time, turns: seq<Turn>)
    requires RowsValid(rows) && CanTake(rows, jobType, from, turns)
    ensures |turns| <= Budget(rows, jobType)
    decreases |turns|
  {
    if turns != [] {
      TurnSpendsBudget(rows, jobType, turns[0]);
      ProcessingEnds(AfterTurn(rows, turns[0]), jobType, turns[0].finishedAt, turns[1..]);
    }
  }

  function TurnsOf(turns: seq<Turn>, job: nat): nat
    decreases |turns|
  {
    if turns == [] then 0 else (if turns[0].job == job then 1 else 0) + TurnsOf(turns[1..], job)
  }

  /** What the turns leave of one row. */
  ghost predicate Outcome(before: StageJob, after: StageJob, jobType: JobType, turns: nat, end: Time) {
    && RowValid(after)
    && Claims(after) == Claims(before) + turns
    && (before.jobType != jobType || !IsOpen(before) ==> after == before)
    && after.jobType == before.jobType
    && !(after.status.Running? && !before.status.Running?)
    && (IsOpen(after) ==> after.availableAt == before.availableAt || after.availableAt <= end)
  }

  lemma TurnAccountsForRow(rows: seq<StageJob>, jobType: JobType, t: Turn, i: nat, end: Time)
    requires RowsValid(rows) && IsNext(rows, jobType, t.claimedAt, t.job) && i < |rows| && t.finishedAt <= end
    ensures Outcome(rows[i], AfterTurn(rows, t)[i], jobType, if t.job == i then 1 else 0, end)
  {
  }

  lemma OutcomesCompose(a: StageJob, b: StageJob, c: StageJob, jobType: JobType, m: nat, n: nat, end: Time)
    requires Outcome(a, b, jobType, m, end) && Outcome(b, c, jobType, n, end)
    ensures Outcome(a, c, jobType, m + n, end)
  {
    hide RowValid, Claims;
  }

  lemma {:induction false} TurnsAccountForRow(rows: seq<StageJob>, jobType: JobType, from: Time, turns: seq<Turn>,
                                              i: nat, end: Time)
    requires RowsValid(rows) && CanTake(rows, jobType, from, turns) && i < |rows|
    requires forall t | t in turns :: t.finishedAt <= end
    ensures forall t | t in turns :: t.job < |rows|
    ensures |AfterTurns(rows, turns)| == |rows|
    ensures Outcome(rows[i], AfterTurns(rows, turns)[i], jobType, TurnsOf(turns, i), end)
    decreases |turns|
  {
    hide RowValid, Claimable, AfterTurn;
    TurnsFit(rows, jobType, from, turns);
    if turns != [] {
      hide Outcome, RowsValid;
      var next := AfterTurn(rows, turns[0]);
      TurnSpendsBudget(rows, jobType, turns[0]);
      SameLength(rows, turns[0]);
      assert turns[0] in turns && forall t | t in turns[1..] :: t in turns;
      TurnAccountsForRow(rows, jobType, turns[0], i, end);
      TurnsAccountForRow(next, jobType, turns[0].finishedAt, turns[1..], i, end);
      OutcomesCompose(rows[i], next[i], AfterTurns(next, turns[1..])[i], jobType, if turns[0].job == i then 1 else 0,
                      TurnsOf(turns[1..], i), end);
    }
  }

  /** No row is ever claimed more often than it may be attempted. */
  lemma ClaimsAreLimited(rows: seq<StageJob>, jobType: JobType, from: Time, turns: seq<Turn>, i: nat, end: Time)
    requires RowsValid(rows) && CanTake(rows, jobType, from, turns) && i < |rows|
    requires forall t | t in turns :: t.finishedAt <= end
    ensures Claims(rows[i]) + TurnsOf(turns, i) <= rows[i].maxAttempts
  {
    TurnsAccountForRow(rows, jobType, from, turns, i, end);
    MaxAttemptsStay(rows, jobType, from, turns, i);
  }

  lemma {:induction false} MaxAttemptsStay(rows: seq<StageJob>, jobType: JobType, from: Time, turns: seq<Turn>, i: nat)
    requires CanTake(rows, jobType, from, turns) && i < |rows|
    ensures forall t | t in turns :: t.job < |rows|
    ensures |AfterTurns(rows, turns)| == |rows| && AfterTurns(rows, turns)[i].maxAttempts == rows[i].maxAttempts
    decreases |turns|
  {
    TurnsFit(rows, jobType, from, turns);
    if turns != [] {
      assert forall t | t in turns[1..] :: t in turns;
      MaxAttemptsStay(AfterTurn(rows, turns[0]), jobType, turns[0].finishedAt, turns[1..], i);
    }
  }

  /** When the worker finds nothing more to claim, every job of its type that was due
      and not being run elsewhere has completed or is in the dead letters, and every
      job it could not touch is as it was. */
  lemma ProcessingDrainsTheQueue(rows: seq<StageJob>, jobType: JobType, from: Time, turns: seq<Turn>, end: Time)
    requires RowsValid(rows) && CanTake(rows, jobType, from, turns)
    requires forall t | t in turns :: t.finishedAt <= end
    ensures forall t | t in turns :: t.job < |rows|
    ensures |AfterTurns(rows, turns)| == |rows|
    ensures var after := AfterTurns(rows, turns);
            (forall j | 0 <= j < |rows| :: !Claimable(after[j], jobType, end)) ==>
              forall i | 0 <= i < |rows| ::
                if rows[i].jobType == jobType && !rows[i].status.Running? && rows[i].availableAt <= end
                then IsTerminal(after[i])
                else rows[i].jobType != jobType || rows[i].status.Running? ==> after[i] == rows[i]
  {
    TurnsFit(rows, jobType, from, turns);
    AllRowsStay(rows, jobType, from, turns);
    var after := AfterTurns(rows, turns);
    if forall j | 0 <= j < |rows| :: !Claimable(after[j], jobType, end) {
      forall i | 0 <= i < |rows|
        ensures if rows[i].jobType == jobType && !rows[i].status.Running? && rows[i].availableAt <= end
                then IsTerminal(after[i])
                else rows[i].jobType != jobType || rows[i].status.Running? ==> after[i] == rows[i]
      {
        TurnsAccountForRow(rows, jobType, from, turns, i, end);
        assert !Claimable(after[i], jobType, end);
      }
    }
  }

  lemma {:induction false} AllRowsStay(rows: seq<StageJob>, jobType: JobType, from: Time, turns: seq<Turn>)
    requires CanTake(rows, jobType, from, turns)
    requires forall t | t in turns :: t.job < |rows|
    ensures |AfterTurns(rows, turns)| == |rows|
    decreases |turns|
  {
    if turns != [] {
      assert turns[0] in turns && forall t | t in turns[1..] :: t in turns;
      AllRowsStay(AfterTurn(rows, turns[0]), jobType, turns[0].finishedAt, turns[1..]);
    }
  }

  /** The first claimable row among the first n, if any. */
  lemma {:induction false} FirstInLine(rows: seq<StageJob>, jobType: JobType, now: Time, n: nat)
    returns (first: Option<nat>)
    requires n <= |rows|
    ensures first.None? ==> forall j | 0 <= j < n :: !Claimable(rows[j], jobType, now)
    ensures first.Some? ==>
              && first.value < n && Claimable(rows[first.value], jobType, now)
              && forall j | 0 <= j < n && Claimable(rows[j], jobType, now) :: NotAfter(rows[first.value], rows[j])
  {
    hide Claimable;
    if n == 0 {
      first := None;
    } else {
      first := FirstInLine(rows, jobType, now, n - 1);
      if Claimable(rows[n - 1], jobType, now) && (first.None? || !NotAfter(rows[first.value], rows[n - 1])) {
        first := Some(n - 1);
      }
    }
  }

  /** The turns that a worker takes whose handlers answer so, the n-th call by `handler(n, job)`. */
  predicate Answered(turns: seq<Turn>, now: Time, handler: (nat, nat) -> Option<QueueFailure>, n: nat) {
    forall k | 0 <= k < |turns| :: turns[k] == Turn(turns[k].job, now, now, handler(n + k, turns[k].job))
  }

  lemma TurnThenRest(rows: seq<StageJob>, jobType: JobType, now: Time, t: Turn, rest: seq<Turn>)
    requires IsNext(rows, jobType, t.claimedAt, t.job) && t.claimedAt == t.finishedAt == now
    requires CanTake(AfterTurn(rows, t), jobType, now, rest)
    requires forall u | u in rest :: u.job < |rows| && u.finishedAt <= now
    ensures CanTake(rows, jobType, now, [t] + rest)
    ensures forall u | u in [t] + rest :: u.job < |rows| && u.finishedAt <= now
    ensures AfterTurns(rows, [t] + rest) == AfterTurns(AfterTurn(rows, t), rest)
  {
    hide Claimable, AfterTurn;
    assert ([t] + rest)[1..] == rest;
  }

  lemma AnswerThenRest(now: Time, handler: (nat, nat) -> Option<QueueFailure>, n: nat, job: nat, rest: seq<Turn>)
    requires Answered(rest, now, handler, n + 1)
    ensures Answered([Turn(job, now, now, handler(n, job))] + rest, now, handler, n)
  {
  }

  /** Whatever its handlers answer, the worker gets through: there are turns it can take, no
      more than the remaining attempts, after which nothing is left to claim. */
  lemma {:induction false} WorkerGetsThrough(rows: seq<StageJob>, jobType: JobType, now: Time,
                                             handler: (nat, nat) -> Option<QueueFailure>, n: nat)
    returns (turns: seq<Turn>)
    requires RowsValid(rows)
    ensures CanTake(rows, jobType, now, turns) && Answered(turns, now, handler, n)
    ensures |turns| <= Budget(rows, jobType)
    ensures forall t | t in turns :: t.job < |rows| && t.finishedAt <= now
    ensures |AfterTurns(rows, turns)| == |rows|
    ensures forall j | 0 <= j < |rows| :: !Claimable(AfterTurns(rows, turns)[j], jobType, now)
    decreases Budget(rows, jobType)
  {
    hide RowsValid, Claimable, CanTake, AfterTurn, AfterTurns, Answered, Budget;
    var first := FirstInLine(rows, jobType, now, |rows|);
    if first.None? {
      turns := [];
      NoTurns(rows, jobType, now, handler, n);
    } else {
      var t := Turn(first.value, now, now, handler(n, first.value));
      TurnSpendsBudget(rows, jobType, t);
      var rest := WorkerGetsThrough(AfterTurn(rows, t), jobType, now, handler, n + 1);
      turns := [t] + rest;
      SameLength(rows, t);
      TurnThenRest(rows, jobType, now, t, rest);
      AnswerThenRest(now, handler, n, first.value, rest);
    }
  }

  lemma SameLength(rows: seq<StageJob>, t: Turn)
    requires t.job < |rows|
    ensures |AfterTurn(rows, t)| == |rows|
  {
  }

  lemma NoTurns(rows: seq<StageJob>, jobType: JobType, now: Time, handler: (nat, nat) -> Option<QueueFailure>, n: nat)
    ensures CanTake(rows, jobType, now, []) && Answered([], now, handler, n) && AfterTurns(rows, []) == rows
  {
  }

  /** So from any rows there is a run of the worker, no longer than the attempts that are
      left, after which every job of its type that was due and not being run elsewhere has
      completed or is in the dead letters. */
  lemma EveryQueueDrains(rows: seq<StageJob>, jobType: JobType, now: Time,
                         handler: (nat, nat) -> Option<QueueFailure>)
    returns (turns: seq<Turn>)
    requires RowsValid(rows)
    ensures CanTake(rows, jobType, now, turns) && Answered(turns, now, handler, 0)
    ensures |turns| <= Budget(rows, jobType)
    ensures forall t | t in turns :: t.job < |rows|
    ensures |AfterTurns(rows, turns)| == |rows|
    ensures forall i | 0 <= i < |rows| && rows[i].jobType == jobType && !rows[i].status.Running?
                       && rows[i].availableAt <= now :: IsTerminal(AfterTurns(rows, turns)[i])
  {
    hide RowValid, Claimable, CanTake, Answered, Budget;
    turns := WorkerGetsThrough(rows, jobType, now, handler, 0);
    ProcessingDrainsTheQueue(rows, jobType, now, turns, now);
  }
}
