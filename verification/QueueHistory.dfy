/** What the turns of the queue's worker (src/modules/queue/jobs.py, src/modules/queue/worker.py)
    tell about a row, and about who is served first. */
module QueueHistory {
  import opened Wrappers
  import opened StageQueue

  // ---------------------------------------------------------------------
  // A row is told by its turns
  // ---------------------------------------------------------------------

  function LastTurn(turns: seq<Turn>, job: nat): Option<Turn>
    decreases |turns|
  {
    if turns == [] then None
    else
      var later := LastTurn(turns[1..], job);
      if later.None? && turns[0].job == job then Some(turns[0]) else later
  }

  function FailuresOf(turns: seq<Turn>, job: nat): nat
    decreases |turns|
  {
    if turns == [] then 0
    else (if turns[0].job == job && turns[0].failure.Some? then 1 else 0) + FailuresOf(turns[1..], job)
  }

  /** The stored message is the reported one, cut to 500 characters. */
  predicate Reports(error: Option<(string, string)>, failure: QueueFailure) {
    && error.Some? && error.value.0 == failure.category && error.value.1 <= failure.message
    && |error.value.1| == if |failure.message| <= 500 then |failure.message| else 500
  }

  /** What the last turn of a row and the number of its failures leave of it. */
  predicate Told(before: StageJob, after: StageJob, last: Turn, failures: nat) {
    && after.jobType == before.jobType && after.maxAttempts == before.maxAttempts
    && after.createdAt == before.createdAt && after.attemptCount == before.attemptCount + failures
    && match last.failure
       case None =>
         && after.status.Completed? && after.error.None?
         && after.lockedAt == Some(last.claimedAt) && after.completedAt == Some(last.finishedAt)
       case Some(failure) =>
         && Reports(after.error, failure) && after.lockedAt.None?
         && if after.attemptCount < after.maxAttempts
            then after.status.Failed? && after.availableAt == last.finishedAt
            else after.status.DeadLetter? && after.completedAt == Some(last.finishedAt)
  }

  lemma TurnTells(rows: seq<StageJob>, t: Turn, i: nat)
    requires t.job < |rows| && i < |rows|
    ensures i != t.job ==> AfterTurn(rows, t)[i] == rows[i]
    ensures i == t.job ==> Told(rows[i], AfterTurn(rows, t)[i], t, if t.failure.Some? then 1 else 0)
  {
  }

  /** Whatever its handlers answer, the worker leaves a row without a turn untouched, and of
      every other row what its last turn and the number of its failures tell: done, open
      again from the moment it failed, or dead once its attempts are used up. */
  lemma {:induction false} TurnsTellTheRow(rows: seq<StageJob>, jobType: JobType, from: Time, turns: seq<Turn>, i: nat)
    requires CanTake(rows, jobType, from, turns) && i < |rows|
    ensures forall t | t in turns :: t.job < |rows|
    ensures |AfterTurns(rows, turns)| == |rows|
    ensures var after := AfterTurns(rows, turns)[i];
            match LastTurn(turns, i)
            case None => after == rows[i] && FailuresOf(turns, i) == 0
            case Some(last) => Told(rows[i], after, last, FailuresOf(turns, i))
    decreases |turns|
  {
    hide Claimable, AfterTurn, Told;
    TurnsFit(rows, jobType, from, turns);
    if turns != [] {
      assert turns[0] in turns && forall t | t in turns[1..] :: t in turns;
      SameLength(rows, turns[0]);
      var next := AfterTurn(rows, turns[0]);
      TurnTells(rows, turns[0], i);
      TurnsTellTheRow(next, jobType, turns[0].finishedAt, turns[1..], i);
      if turns[0].job == i && LastTurn(turns[1..], i).Some? {
        ToldAfterwards(rows[i], next[i], AfterTurns(rows, turns)[i], turns[0], LastTurn(turns[1..], i).value,
                       if turns[0].failure.Some? then 1 else 0, FailuresOf(turns[1..], i));
      }
    }
  }

  lemma ToldAfterwards(before: StageJob, between: StageJob, after: StageJob, first: Turn, last: Turn, m: nat, n: nat)
    requires Told(before, between, first, m) && Told(between, after, last, n)
    ensures Told(before, after, last, m + n)
  {
  }

  // ---------------------------------------------------------------------
  // A job that failed waits for those that were due before
  // ---------------------------------------------------------------------

  lemma LateIsNotNext(rows: seq<StageJob>, jobType: JobType, now: Time, i: nat, j: nat)
    requires i < |rows| && j < |rows| && Claimable(rows[j], jobType, now)
    requires rows[j].availableAt < rows[i].availableAt
    ensures !IsNext(rows, jobType, now, i)
  {
    assert !NotAfter(rows[i], rows[j]);
  }

  lemma {:induction false} OthersComeFirst(rows: seq<StageJob>, jobType: JobType, from: Time, turns: seq<Turn>, n: nat,
                                           j: nat, since: Time)
    requires CanTake(rows, jobType, from, turns) && n < |turns| && from >= since
    requires turns[n].job < |rows| && j < |rows| && turns[n].job != j
    requires rows[turns[n].job].availableAt >= since
    requires Claimable(rows[j], jobType, since) && rows[j].availableAt < since
    ensures exists m | 0 <= m < n :: turns[m].job == j
    decreases n
  {
    var t := turns[0];
    if n == 0 {
      LateIsNotNext(rows, jobType, t.claimedAt, t.job, j);
    } else if t.job != j {
      var rest := turns[1..];
      TurnTells(rows, t, j);
      StaysLate(rows, jobType, t, turns[n].job, since);
      OthersComeFirst(AfterTurn(rows, t), jobType, t.finishedAt, rest, n - 1, j, since);
      var m :| 0 <= m < n - 1 && rest[m].job == j;
      assert turns[m + 1].job == j;
    }
  }

  lemma StaysLate(rows: seq<StageJob>, jobType: JobType, t: Turn, i: nat, since: Time)
    requires t.job < |rows| && i < |rows| && t.finishedAt >= since && rows[i].availableAt >= since
    ensures AfterTurn(rows, t)[i].availableAt >= since
  {
  }

  /** A job that failed with attempts left is not served again while a job of its type that
      was due before its failure is still waiting: each of those is served in between. */
  lemma FailedJobGoesToTheBack(rows: seq<StageJob>, jobType: JobType, from: Time, turns: seq<Turn>, n: nat, j: nat)
    requires CanTake(rows, jobType, from, turns) && 0 < n < |turns| && j < |rows|
    requires turns[0].failure.Some? && turns[n].job == turns[0].job != j
    requires Claimable(rows[j], jobType, turns[0].finishedAt) && rows[j].availableAt < turns[0].finishedAt
    ensures exists m | 0 < m < n :: turns[m].job == j
  {
    hide CanTake, Claimable, IsNext;
    var t, rest := turns[0], turns[1..];
    FirstTurn(rows, jobType, from, turns);
    TurnTells(rows, t, j);
    TurnTells(rows, t, t.job);
    var after := AfterTurn(rows, t)[t.job];
    if after.status.Failed? {
      OthersComeFirst(AfterTurn(rows, t), jobType, t.finishedAt, rest, n - 1, j, t.finishedAt);
      var m :| 0 <= m < n - 1 && rest[m].job == j;
      assert turns[m + 1].job == j;
    } else {
      DeadStaysDead(AfterTurn(rows, t), jobType, t.finishedAt, rest, n - 1);
    }
  }

  lemma FirstTurn(rows: seq<StageJob>, jobType: JobType, from: Time, turns: seq<Turn>)
    requires CanTake(rows, jobType, from, turns) && turns != []
    ensures turns[0].job < |rows| && Claimable(rows[turns[0].job], jobType, turns[0].claimedAt)
    ensures from <= turns[0].claimedAt <= turns[0].finishedAt
    ensures CanTake(AfterTurn(rows, turns[0]), jobType, turns[0].finishedAt, turns[1..])
  {
  }

  /** A row served again was open before. */
  lemma {:induction false} DeadStaysDead(rows: seq<StageJob>, jobType: JobType, from: Time, turns: seq<Turn>, n: nat)
    requires CanTake(rows, jobType, from, turns) && n < |turns|
    ensures turns[n].job < |rows| && IsOpen(rows[turns[n].job])
    decreases n
  {
    FirstTurn(rows, jobType, from, turns);
    if n > 0 {
      hide CanTake;
      DeadStaysDead(AfterTurn(rows, turns[0]), jobType, turns[0].finishedAt, turns[1..], n - 1);
    }
  }
}
