/** What the sync worker guarantees in one run and over any sequence of runs,
    whatever the backend answers. */
module SyncHistory {
  import opened Sequences
  import opened Wrappers
  import opened SyncEvents
  import opened SyncWorker

  // ---------------------------------------------------------------------
  // The backend's side of the ledger
  // ---------------------------------------------------------------------

  /** How many submitted chunks contained the key. */
  function Submitted(log: seq<Submission>, key: Key): nat {
    if log == [] then 0
    else Submitted(log[..|log| - 1], key) + (if key in log[|log| - 1].keys then 1 else 0)
  }

  /** How many accepted chunks contained the key. */
  function AcceptedTimes(log: seq<Submission>, key: Key): nat {
    if log == [] then 0
    else
      var last := log[|log| - 1];
      AcceptedTimes(log[..|log| - 1], key) + (if key in last.keys && last.outcome.Ok? then 1 else 0)
  }

  /** How many jobs the backend has taken, chunk by chunk. */
  function Taken(log: seq<Submission>): nat {
    if log == [] then 0
    else
      var last := log[|log| - 1];
      Taken(log[..|log| - 1]) + (if last.outcome.Ok? then |last.keys| else 0)
  }

  lemma LogGrows(log: seq<Submission>, s: Submission, key: Key)
    ensures Submitted(log + [s], key) == Submitted(log, key) + (if key in s.keys then 1 else 0)
    ensures AcceptedTimes(log + [s], key)
            == AcceptedTimes(log, key) + (if key in s.keys && s.outcome.Ok? then 1 else 0)
    ensures Taken(log + [s]) == Taken(log) + (if s.outcome.Ok? then |s.keys| else 0)
  {
    assert (log + [s])[..|log|] == log;
  }

  function Attempts(events: Events, key: Key): nat {
    if key in events then events[key].attemptCount else 0
  }

  predicate IsSent(events: Events, key: Key) {
    key in events && events[key].status.Sent?
  }

  /** A pending event has not been submitted yet. */
  predicate PendingIsFresh(events: Events, key: Key) {
    key in events && events[key].status.Pending? ==> events[key].attemptCount == 0
  }

  function One(b: bool): nat { if b then 1 else 0 }

  /** How far the world has moved for one key: every submission is an attempt, and
      an acceptance is exactly a move to the sent state. */
  ghost predicate Moved(before: World, after: World, key: Key) {
    && Submitted(after.log, key) >= Submitted(before.log, key)
    && (key.hash.OfNormalized? ==> Submitted(after.log, key) == Submitted(before.log, key))
    && (key.hash.OfBackend? ==>
          && Attempts(after.events, key) - Attempts(before.events, key)
             == Submitted(after.log, key) - Submitted(before.log, key)
          && AcceptedTimes(after.log, key) - AcceptedTimes(before.log, key)
             == One(IsSent(after.events, key)) - One(IsSent(before.events, key))
          && (PendingIsFresh(before.events, key) ==> PendingIsFresh(after.events, key)))
  }

  // ---------------------------------------------------------------------
  // One chunk
  // ---------------------------------------------------------------------

  lemma ChunkMoves(run: Run, w: World, chunk: seq<Job>, key: Key)
    requires key.hash.OfBackend? && key in KeySet(chunk) ==> !IsSent(w.events, key)
    ensures var after := ChunkWorld(run, w, chunk);
            && Moved(w, after, key)
            && Submitted(after.log, key) == Submitted(w.log, key) + One(key in ValidKeys(chunk))
            && (key !in KeySet(chunk) ==> IsSent(after.events, key) == IsSent(w.events, key))
  {
    hide ChunkEvents, ValidKeys, KeySet, Submitted, AcceptedTimes;
    ValidKeysFit(chunk);
    EventAfterChunk(w.events, chunk, run.id, run.client(|w.log|), run.maxAttempts, key);
    LogGrows(w.log, Submission(ValidKeys(chunk), run.client(|w.log|)), key);
  }

  lemma ChunkTakes(run: Run, w: World, chunk: seq<Job>)
    ensures |ValidKeys(chunk)| <= |chunk|
    ensures var result := ResultOf(run, w, chunk);
            && Taken(ChunkWorld(run, w, chunk).log) == Taken(w.log) + result.sent
            && result.sent + result.failed == |chunk|
            && (result.sent == 0 ==>
                  forall key | key in KeySet(chunk) :: !IsSent(ChunkWorld(run, w, chunk).events, key))
  {
    ValidKeysFit(chunk);
    var outcome := run.client(|w.log|);
    if ValidKeys(chunk) == [] {
      assert forall key | key in KeySet(chunk) :: key !in ValidKeys(chunk);
    } else {
      LogGrows(w.log, Submission(ValidKeys(chunk), outcome), ValidKeys(chunk)[0]);
    }
  }

  // ---------------------------------------------------------------------
  // How often a chunk can be halved
  // ---------------------------------------------------------------------

  function Halvings(floor: nat, size: nat): nat
    requires floor >= 1
    decreases size
  {
    if size <= floor then 0 else 1 + Halvings(floor, Max(floor, (size + 1) / 2))
  }

  function CeilLog2(n: nat): nat {
    if n <= 1 then 0 else 1 + CeilLog2((n + 1) / 2)
  }

  function Pow2(k: nat): (p: nat)
    ensures p >= 1
  {
    if k == 0 then 1 else 2 * Pow2(k - 1)
  }

  /** CeilLog2 is the rounded-up logarithm: the least exponent whose power reaches n. */
  lemma {:induction false} CeilLog2IsLeastExponent(n: nat, k: nat)
    requires n >= 1
    ensures n <= Pow2(k) <==> CeilLog2(n) <= k
    decreases k
  {
    if n > 1 && k > 0 {
      CeilLog2IsLeastExponent((n + 1) / 2, k - 1);
    }
  }

  lemma {:induction false} HalvingsMonotone(floor: nat, a: nat, b: nat)
    requires floor >= 1 && a <= b
    ensures Halvings(floor, a) <= Halvings(floor, b)
    decreases b
  {
    if a > floor {
      HalvingsMonotone(floor, Max(floor, (a + 1) / 2), Max(floor, (b + 1) / 2));
    }
  }

  lemma {:induction false} HalvingsAreLogarithmic(floor: nat, size: nat)
    requires floor >= 1
    ensures Halvings(floor, size) <= CeilLog2(size)
    decreases size
  {
    if size > floor {
      var next := Max(floor, (size + 1) / 2);
      if next == floor {
        assert Halvings(floor, floor) == 0;
      } else {
        HalvingsAreLogarithmic(floor, next);
      }
    }
  }

  // ---------------------------------------------------------------------
  // What every step of a run keeps
  // ---------------------------------------------------------------------

  /** The size of the first chunk. */
  function FirstChunk(config: Config, jobs: seq<Job>): nat {
    Min(InitialChunkSize(config), |jobs|)
  }

  predicate Counts(config: Config, jobs: seq<Job>, t: Tally)
    requires config.minBatchSize >= 1
  {
    && t.cursor <= |jobs| && t.chunkSize >= 1
    && Flatten(t.settled) == jobs[..t.cursor]
    && t.sent + t.failed == t.cursor
    && |t.settled| <= t.cursor
    && t.chunksAttempted == |t.settled| + t.reductions
    && |t.classes| == t.chunksAttempted
    && t.reductions <= t.chunksFailed <= t.chunksAttempted
    && (t.reductions > 0 ==> config.adaptive)
    && t.reductions + Halvings(config.minBatchSize, Min(t.chunkSize, |jobs|))
       <= Halvings(config.minBatchSize, FirstChunk(config, jobs))
  }

  /** A job may be submitted once per reduction and once more when its chunk settles. */
  ghost predicate Tracked(jobs: seq<Job>, start: World, p: Progress, key: Key)
    requires p.tally.cursor <= |jobs|
  {
    && Moved(start, p.world, key)
    && (key.hash.OfBackend? && key in KeySet(jobs[p.tally.cursor..]) ==> !IsSent(p.world.events, key))
    && Submitted(p.world.log, key) <= Submitted(start.log, key)
         + (if key in KeySet(jobs) then p.tally.reductions + One(key in KeySet(jobs[..p.tally.cursor])) else 0)
  }

  ghost predicate Good(config: Config, jobs: seq<Job>, start: World, p: Progress)
    requires config.minBatchSize >= 1
  {
    && Counts(config, jobs, p.tally)
    && Taken(p.world.log) == Taken(start.log) + p.tally.sent
    && (forall key :: Tracked(jobs, start, p, key))
  }

  /** The chunk at the cursor; `rest` is what stays behind it. */
  ghost predicate AtCursor(jobs: seq<Job>, t: Tally, chunk: seq<Job>) {
    && chunk != [] && t.cursor + |chunk| <= |jobs|
    && |chunk| <= t.chunkSize
    && chunk == jobs[t.cursor..t.cursor + |chunk|]
  }

  lemma KeysOfParts(jobs: seq<Job>, i: nat, j: nat)
    requires DistinctJobs(jobs) && i <= j <= |jobs|
    ensures KeySet(jobs[..j]) == KeySet(jobs[..i]) + KeySet(jobs[i..j])
    ensures KeySet(jobs[i..]) == KeySet(jobs[i..j]) + KeySet(jobs[j..])
    ensures KeySet(jobs) == KeySet(jobs[..j]) + KeySet(jobs[j..])
    ensures KeySet(jobs[..j]) !! KeySet(jobs[j..])
    ensures KeySet(jobs[..i]) !! KeySet(jobs[i..j])
  {
    assert jobs[..j] == jobs[..i] + jobs[i..j];
    assert jobs[i..] == jobs[i..j] + jobs[j..];
    assert jobs == jobs[..j] + jobs[j..];
  }

  /** An attempt that is repeated on a smaller chunk. */
  lemma RetryTracked(run: Run, config: Config, jobs: seq<Job>, start: World, p: Progress, chunk: seq<Job>,
                     next: nat, key: Key)
    requires DistinctJobs(jobs) && AtCursor(jobs, p.tally, chunk) && |ValidKeys(chunk)| <= |chunk|
    requires Tracked(jobs, start, p, key)
    requires ResultOf(run, p.world, chunk).sent == 0
    ensures Tracked(jobs, start, Progress(ChunkWorld(run, p.world, chunk),
                                          CountedRetry(p.tally, ResultOf(run, p.world, chunk), next)), key)
  {
    hide ChunkWorld, ResultOf, ValidKeys, KeySet, DistinctJobs, Submitted, AcceptedTimes;
    KeysOfParts(jobs, p.tally.cursor, p.tally.cursor + |chunk|);
    ChunkMoves(run, p.world, chunk, key);
    ChunkTakes(run, p.world, chunk);
    ValidKeysFit(chunk);
  }

  /** An attempt that settles its chunk. */
  lemma SettledTracked(run: Run, config: Config, jobs: seq<Job>, start: World, p: Progress, chunk: seq<Job>, key: Key)
    requires DistinctJobs(jobs) && AtCursor(jobs, p.tally, chunk) && |ValidKeys(chunk)| <= |chunk|
    requires Tracked(jobs, start, p, key)
    ensures Tracked(jobs, start, Progress(ChunkWorld(run, p.world, chunk),
                                          CountedSettled(p.tally, ResultOf(run, p.world, chunk), chunk)), key)
  {
    hide ChunkWorld, ResultOf, ValidKeys, KeySet, DistinctJobs, Submitted, AcceptedTimes;
    KeysOfParts(jobs, p.tally.cursor, p.tally.cursor + |chunk|);
    ChunkMoves(run, p.world, chunk, key);
    ValidKeysFit(chunk);
  }

  lemma RetryCounts(config: Config, jobs: seq<Job>, t: Tally, result: ChunkResult, chunk: seq<Job>)
    requires config.minBatchSize >= 1 && Counts(config, jobs, t) && AtCursor(jobs, t, chunk)
    requires RetrySmaller(config, result, |chunk|)
    ensures NextSize(config, |chunk|) >= 1
    ensures Counts(config, jobs, CountedRetry(t, result, NextSize(config, |chunk|)))
  {
    NextSizeShrinks(config, |chunk|);
    HalvingsMonotone(config.minBatchSize, |chunk|, Min(t.chunkSize, |jobs|));
  }

  lemma SettledCounts(config: Config, jobs: seq<Job>, t: Tally, result: ChunkResult, chunk: seq<Job>)
    requires config.minBatchSize >= 1 && Counts(config, jobs, t) && AtCursor(jobs, t, chunk)
    requires result.sent + result.failed == |chunk|
    ensures Counts(config, jobs, CountedSettled(t, result, chunk))
  {
    var settled := t.settled + [chunk];
    assert settled[..|t.settled|] == t.settled;
    assert jobs[..t.cursor] + chunk == jobs[..t.cursor + |chunk|];
  }

  lemma {:induction false} SettleKeepsGood(run: Run, config: Config, jobs: seq<Job>, start: World, p: Progress,
                                           chunk: seq<Job>)
    requires config.minBatchSize >= 1 && DistinctJobs(jobs)
    requires Good(config, jobs, start, p) && AtCursor(jobs, p.tally, chunk)
    ensures Good(config, jobs, start, Settle(run, config, p, chunk))
    decreases |chunk|
  {
    hide Counts, Tracked, ChunkWorld, ResultOf, ValidKeys, KeySet, DistinctJobs;
    ValidKeysFit(chunk);
    ChunkTakes(run, p.world, chunk);
    var result := ResultOf(run, p.world, chunk);
    var world := ChunkWorld(run, p.world, chunk);
    if RetrySmaller(config, result, |chunk|) {
      var next := NextSize(config, |chunk|);
      RetryCounts(config, jobs, p.tally, result, chunk);
      NextSizeShrinks(config, |chunk|);
      var q := Progress(world, CountedRetry(p.tally, result, next));
      forall key ensures Tracked(jobs, start, q, key) {
        RetryTracked(run, config, jobs, start, p, chunk, next, key);
      }
      assert chunk[..next] == jobs[q.tally.cursor..q.tally.cursor + next];
      SettleKeepsGood(run, config, jobs, start, q, chunk[..next]);
    } else {
      SettledCounts(config, jobs, p.tally, result, chunk);
      var q := Progress(world, CountedSettled(p.tally, result, chunk));
      forall key ensures Tracked(jobs, start, q, key) {
        SettledTracked(run, config, jobs, start, p, chunk, key);
      }
    }
  }

  lemma {:induction false} DrainKeepsGood(run: Run, config: Config, jobs: seq<Job>, start: World, p: Progress)
    requires config.minBatchSize >= 1 && DistinctJobs(jobs)
    requires Good(config, jobs, start, p)
    ensures Good(config, jobs, start, Drain(run, config, jobs, p))
    ensures Drain(run, config, jobs, p).tally.cursor == |jobs|
    decreases |jobs| - p.tally.cursor
  {
    hide Settle, Tracked, DistinctJobs;
    if p.tally.cursor < |jobs| {
      var chunk := NextChunk(jobs, p.tally);
      SettleKeepsGood(run, config, jobs, start, p, chunk);
      DrainKeepsGood(run, config, jobs, start, Settle(run, config, p, chunk));
    }
  }

  lemma RunKeepsGood(run: Run, config: Config, w: World, jobs: seq<Job>)
    requires config.minBatchSize >= 1 && DistinctJobs(jobs)
    requires forall key | key in KeySet(jobs) && key.hash.OfBackend? :: !IsSent(w.events, key)
    ensures var end := Finish(run, config, w, jobs);
            Good(config, jobs, w, end) && end.tally.cursor == |jobs|
  {
    var p := Progress(w, StartTally(config));
    assert jobs[0..] == jobs;
    StartCounts(config, jobs);
    DrainKeepsGood(run, config, jobs, w, p);
  }

  // ---------------------------------------------------------------------
  // One run
  // ---------------------------------------------------------------------

  /** A job that was accepted under its present payload is not a candidate. */
  lemma CandidatesAreUnsent(events: Events, maxAttempts: int, listed: seq<Job>, limit: int)
    requires DistinctJobs(listed)
    ensures var jobs := Candidates(events, maxAttempts, listed, limit);
            && DistinctJobs(jobs) && |jobs| <= Max(limit, 1)
            && forall key | key in KeySet(jobs) && key.hash.OfBackend? ::
                 !IsSent(events, key)
                 && (PendingIsFresh(events, key) ==> Attempts(events, key) <= Max(maxAttempts, 1) - 1)
  {
    CandidatesDistinct(events, maxAttempts, listed, limit);
    var jobs := Candidates(events, maxAttempts, listed, limit);
    hide Candidates, DistinctJobs;
    forall key | key in KeySet(jobs) && key.hash.OfBackend?
      ensures !IsSent(events, key)
      ensures PendingIsFresh(events, key) ==> Attempts(events, key) <= Max(maxAttempts, 1) - 1
    {
      var job :| job in jobs && KeyOf(job) == key;
      assert IsCandidate(events, maxAttempts, job);
    }
  }

  /** The run of the worker over the jobs listed for it. */
  function RunOver(run: Run, config: Config, w: World, listed: seq<Job>): Progress
    requires config.minBatchSize >= 1
  {
    Finish(run, config, w, Candidates(w.events, run.maxAttempts, listed, config.limit))
  }

  lemma RunIsGood(run: Run, config: Config, w: World, listed: seq<Job>)
    requires config.minBatchSize >= 1 && DistinctJobs(listed)
    ensures var jobs := Candidates(w.events, run.maxAttempts, listed, config.limit);
            var end := RunOver(run, config, w, listed);
            Good(config, jobs, w, end) && end.tally.cursor == |jobs|
  {
    hide Finish, Candidates, DistinctJobs, Good;
    CandidatesAreUnsent(w.events, run.maxAttempts, listed, config.limit);
    RunKeepsGood(run, config, w, Candidates(w.events, run.maxAttempts, listed, config.limit));
  }

  /** The settled chunks are the candidate list cut in pieces: no gap, no repeat;
      every candidate is counted once, as sent or as failed; and what was counted
      as sent is what the backend took. */
  lemma RunSettlesEveryCandidate(run: Run, config: Config, w: World, listed: seq<Job>)
    requires config.minBatchSize >= 1 && DistinctJobs(listed)
    ensures var jobs := Candidates(w.events, run.maxAttempts, listed, config.limit);
            var end := RunOver(run, config, w, listed);
            var report := ReportOf(jobs, end.tally);
            && Flatten(end.tally.settled) == jobs
            && report.attempted == report.sent + report.failed
            && report.sent == Taken(end.world.log) - Taken(w.log)
            && report.zeroSentReason != Some(NoneSent)
  {
    hide Finish, Candidates, DistinctJobs, Tracked;
    RunIsGood(run, config, w, listed);
    var jobs := Candidates(w.events, run.maxAttempts, listed, config.limit);
    assert jobs[..|jobs|] == jobs;
  }

  /** How often a run can shrink its chunks, and how many chunks it can submit. */
  lemma ReductionsAreLogarithmic(run: Run, config: Config, w: World, listed: seq<Job>)
    requires config.minBatchSize >= 1 && DistinctJobs(listed)
    ensures var jobs := Candidates(w.events, run.maxAttempts, listed, config.limit);
            var t := RunOver(run, config, w, listed).tally;
            && t.reductions <= CeilLog2(FirstChunk(config, jobs)) <= 5
            && t.chunksAttempted <= |jobs| + t.reductions
            && |t.classes| == t.chunksAttempted
            && (t.reductions > 0 ==> config.adaptive && FirstChunk(config, jobs) > config.minBatchSize)
  {
    hide Finish, Candidates, DistinctJobs, Tracked;
    RunIsGood(run, config, w, listed);
    var size := FirstChunk(config, Candidates(w.events, run.maxAttempts, listed, config.limit));
    HalvingsAreLogarithmic(config.minBatchSize, size);
    if size >= 1 {
      CeilLog2IsLeastExponent(size, 5);
      assert Pow2(5) == 32 by { assert Pow2(2) == 4 && Pow2(3) == 8 && Pow2(4) == 16; }
    }
  }

  // ---------------------------------------------------------------------
  // What a run leaves alone
  // ---------------------------------------------------------------------

  lemma {:induction false} SettleLeavesAlone(run: Run, config: Config, p: Progress, chunk: seq<Job>, key: Key)
    requires config.minBatchSize >= 1 && chunk != [] && key !in KeySet(chunk)
    ensures FindEvent(Settle(run, config, p, chunk).world.events, key) == FindEvent(p.world.events, key)
    decreases |chunk|
  {
    hide ChunkEvents, ValidKeys, FindEvent;
    ValidKeysFit(chunk);
    var result := ResultOf(run, p.world, chunk);
    EventAfterChunk(p.world.events, chunk, run.id, run.client(|p.world.log|), run.maxAttempts, key);
    if RetrySmaller(config, result, |chunk|) {
      NextSizeShrinks(config, |chunk|);
      var next := NextSize(config, |chunk|);
      assert forall job | job in chunk[..next] :: job in chunk;
      SettleLeavesAlone(run, config, Progress(ChunkWorld(run, p.world, chunk), CountedRetry(p.tally, result, next)),
                        chunk[..next], key);
    }
  }

  lemma {:induction false} DrainLeavesAlone(run: Run, config: Config, jobs: seq<Job>, p: Progress, key: Key)
    requires config.minBatchSize >= 1 && p.tally.chunkSize >= 1 && p.tally.cursor <= |jobs|
    requires key !in KeySet(jobs)
    ensures FindEvent(Drain(run, config, jobs, p).world.events, key) == FindEvent(p.world.events, key)
    decreases |jobs| - p.tally.cursor
  {
    hide Settle, FindEvent;
    if p.tally.cursor < |jobs| {
      var chunk := NextChunk(jobs, p.tally);
      assert forall job | job in chunk :: job in jobs;
      SettleLeavesAlone(run, config, p, chunk, key);
      DrainLeavesAlone(run, config, jobs, Settle(run, config, p, chunk), key);
    }
  }

  /** The event is marked with the run. */
  predicate MarkedBy(events: Events, key: Key, id: RunId) {
    key in events && events[key].runId == Some(id)
  }

  /** A run under a new id marks at most one event of each job with it: listed by run,
      the jobs it sent are all different. */
  lemma FreshRunMarksJobsOnce(run: Run, config: Config, w: World, listed: seq<Job>, id: RunId, a: Key, b: Key)
    requires config.minBatchSize >= 1 && DistinctJobs(listed)
    requires forall key: Key :: !MarkedBy(w.events, key, id)
    requires var end := RunOver(run, config, w, listed).world.events; MarkedBy(end, a, id) && MarkedBy(end, b, id)
    requires a.job == b.job
    ensures a == b
  {
    hide Drain, Candidates;
    var jobs := Candidates(w.events, run.maxAttempts, listed, config.limit);
    CandidatesDistinct(w.events, run.maxAttempts, listed, config.limit);
    var start := Progress(w, StartTally(config));
    forall key | key !in KeySet(jobs) ensures !MarkedBy(RunOver(run, config, w, listed).world.events, key, id) {
      DrainLeavesAlone(run, config, jobs, start, key);
      assert !MarkedBy(w.events, key, id);
    }
    var x :| x in jobs && KeyOf(x) == a;
    var y :| y in jobs && KeyOf(y) == b;
    var i :| 0 <= i < |jobs| && jobs[i] == x;
    var j :| 0 <= j < |jobs| && jobs[j] == y;
  }

  // ---------------------------------------------------------------------
  // Any sequence of runs
  // ---------------------------------------------------------------------

  datatype Request = Request(id: Option<RunId>, config: Config, listed: seq<Job>)

  const NOTHING := World(map[], [])

  /** The world after a sequence of runs; a request with a bad minimum is refused. */
  function History(client: nat -> Outcome, maxAttempts: int, requests: seq<Request>): World {
    if requests == [] then NOTHING
    else
      var w := History(client, maxAttempts, requests[..|requests| - 1]);
      var last := requests[|requests| - 1];
      if last.config.minBatchSize <= 0 then w
      else RunOver(Run(last.id, client, maxAttempts), last.config, w, last.listed).world
  }

  predicate Acceptable(requests: seq<Request>, cap: nat) {
    forall r | r in requests :: DistinctJobs(r.listed) && InitialChunkSize(r.config) <= cap
  }

  lemma CeilLog2Monotone(a: nat, b: nat)
    requires a <= b
    ensures CeilLog2(a) <= CeilLog2(b)
  {
    if a >= 1 {
      CeilLog2IsLeastExponent(b, CeilLog2(b));
      CeilLog2IsLeastExponent(a, CeilLog2(b));
    }
  }

  /** What one run adds for one key. */
  lemma RunAdds(run: Run, config: Config, w: World, listed: seq<Job>, cap: nat, key: Key)
    requires config.minBatchSize >= 1 && DistinctJobs(listed) && InitialChunkSize(config) <= cap
    ensures var end := RunOver(run, config, w, listed).world;
            && Moved(w, end, key)
            && (Submitted(end.log, key) == Submitted(w.log, key)
                || (Submitted(end.log, key) <= Submitted(w.log, key) + CeilLog2(cap) + 1
                    && key.hash.OfBackend? && !IsSent(w.events, key)
                    && (PendingIsFresh(w.events, key) ==>
                          Attempts(w.events, key) <= Max(run.maxAttempts, 1) - 1)))
  {
    hide Finish, Candidates, DistinctJobs, Counts;
    var jobs := Candidates(w.events, run.maxAttempts, listed, config.limit);
    RunIsGood(run, config, w, listed);
    ReductionsAreLogarithmic(run, config, w, listed);
    CeilLog2Monotone(FirstChunk(config, jobs), cap);
    CandidatesAreUnsent(w.events, run.maxAttempts, listed, config.limit);
    assert Tracked(jobs, w, RunOver(run, config, w, listed), key);
  }

  /** Over any sequence of runs and whatever the backend answers, a payload is
      accepted at most once; it is recorded as sent exactly when it was accepted;
      its event counts its submissions; and these are bounded by the attempts a
      candidate may have left plus one run's worth of shrinking chunks. */
  lemma {:induction false} AcceptedAtMostOnce(client: nat -> Outcome, maxAttempts: int, requests: seq<Request>,
                                              cap: nat, key: Key)
    requires Acceptable(requests, cap) && key.hash.OfBackend?
    ensures var w := History(client, maxAttempts, requests);
            && AcceptedTimes(w.log, key) == One(IsSent(w.events, key)) <= 1
            && Submitted(w.log, key) == Attempts(w.events, key)
            && Submitted(w.log, key) <= (Max(maxAttempts, 1) - 1) + (CeilLog2(cap) + 1)
            && PendingIsFresh(w.events, key)
  {
    hide RunOver, DistinctJobs;
    if requests != [] {
      var front, last := requests[..|requests| - 1], requests[|requests| - 1];
      assert last in requests && forall r | r in front :: r in requests;
      AcceptedAtMostOnce(client, maxAttempts, front, cap, key);
      if last.config.minBatchSize >= 1 {
        RunAdds(Run(last.id, client, maxAttempts), last.config, History(client, maxAttempts, front),
                last.listed, cap, key);
      }
    }
  }

  /** A payload that the contract rejects never reaches the backend. */
  lemma {:induction false} RejectedByContractIsNeverSubmitted(client: nat -> Outcome, maxAttempts: int,
                                                              requests: seq<Request>, cap: nat, key: Key)
    requires Acceptable(requests, cap) && key.hash.OfNormalized?
    ensures Submitted(History(client, maxAttempts, requests).log, key) == 0
  {
    hide RunOver, DistinctJobs;
    if requests != [] {
      var front, last := requests[..|requests| - 1], requests[|requests| - 1];
      assert last in requests && forall r | r in front :: r in requests;
      RejectedByContractIsNeverSubmitted(client, maxAttempts, front, cap, key);
      if last.config.minBatchSize >= 1 {
        RunAdds(Run(last.id, client, maxAttempts), last.config, History(client, maxAttempts, front),
                last.listed, cap, key);
      }
    }
  }

  // ---------------------------------------------------------------------
  // A run over one job
  // ---------------------------------------------------------------------

  lemma OneCandidate(events: Events, maxAttempts: int, job: Job, limit: int)
    requires IsCandidate(events, maxAttempts, job)
    ensures Candidates(events, maxAttempts, [job], limit) == [job]
  {
    hide IsCandidate;
    assert [job][..0] == [] && [job][..1] == [job];
    assert Qualified(events, maxAttempts, []) == [];
    assert Qualified(events, maxAttempts, [job]) == [job];
  }

  lemma OneJobSettles(run: Run, config: Config, p: Progress, job: Job)
    requires config.minBatchSize >= 1
    ensures var q := Settle(run, config, p, [job]);
            q.world == ChunkWorld(run, p.world, [job]) && q.tally.cursor == p.tally.cursor + 1
  {
    hide ChunkWorld, ResultOf;
  }

  /** A run over one candidate is one chunk. */
  lemma OneJobRuns(run: Run, config: Config, w: World, job: Job)
    requires config.minBatchSize >= 1 && IsCandidate(w.events, run.maxAttempts, job)
    ensures RunOver(run, config, w, [job]).world == ChunkWorld(run, w, [job])
  {
    hide ChunkWorld, Settle, Candidates, IsCandidate;
    OneCandidate(w.events, run.maxAttempts, job, config.limit);
    var p := Progress(w, StartTally(config));
    assert NextChunk([job], p.tally) == [job];
    OneJobSettles(run, config, p, job);
    var q := Settle(run, config, p, [job]);
    assert Drain(run, config, [job], q) == q;
  }

  // ---------------------------------------------------------------------
  // When the attempt limit is really a limit
  // ---------------------------------------------------------------------

  /** No submitted payload has used more attempts than the worker allows. */
  ghost predicate WithinLimit(events: Events, maxAttempts: int) {
    forall key: Key | key.hash.OfBackend? && key in events ::
      events[key].attemptCount <= maxAttempts && PendingIsFresh(events, key)
  }

  /** Runs with these settings, over listings of distinct jobs. */
  predicate AllUnder(config: Config, requests: seq<Request>) {
    forall r | r in requests :: r.config == config && DistinctJobs(r.listed)
  }

  /** Whatever the client does, no sequence of runs with these settings passes the limit. */
  ghost predicate StaysWithinLimit(maxAttempts: int, config: Config) {
    forall client: nat -> Outcome, requests: seq<Request> | AllUnder(config, requests) ::
      WithinLimit(History(client, maxAttempts, requests).events, maxAttempts)
  }

  /** The guard: at least one attempt is allowed, and no chunk can be halved. */
  predicate CannotOvershoot(maxAttempts: int, config: Config) {
    && maxAttempts >= 1
    && (!config.adaptive || Min(InitialChunkSize(config), Max(config.limit, 1)) <= config.minBatchSize)
  }

  lemma GuardKeepsLimit(run: Run, config: Config, w: World, listed: seq<Job>)
    requires config.minBatchSize >= 1 && DistinctJobs(listed)
    requires CannotOvershoot(run.maxAttempts, config) && WithinLimit(w.events, run.maxAttempts)
    ensures WithinLimit(RunOver(run, config, w, listed).world.events, run.maxAttempts)
  {
    hide Finish, Candidates, DistinctJobs, Counts;
    var jobs := Candidates(w.events, run.maxAttempts, listed, config.limit);
    var end := RunOver(run, config, w, listed);
    RunIsGood(run, config, w, listed);
    ReductionsAreLogarithmic(run, config, w, listed);
    CandidatesAreUnsent(w.events, run.maxAttempts, listed, config.limit);
    forall key: Key | key.hash.OfBackend? && key in end.world.events
      ensures end.world.events[key].attemptCount <= run.maxAttempts && PendingIsFresh(end.world.events, key)
    {
      assert Tracked(jobs, w, end, key);
    }
  }

  lemma {:induction false} GuardKeepsHistoryWithinLimit(client: nat -> Outcome, maxAttempts: int, config: Config,
                                                        requests: seq<Request>)
    requires config.minBatchSize >= 1 && CannotOvershoot(maxAttempts, config) && AllUnder(config, requests)
    ensures WithinLimit(History(client, maxAttempts, requests).events, maxAttempts)
  {
    hide WithinLimit, RunOver, DistinctJobs;
    if requests == [] {
      assert WithinLimit(map[], maxAttempts) by { NothingExceeds(maxAttempts); }
    } else {
      var front, last := requests[..|requests| - 1], requests[|requests| - 1];
      assert last in requests && forall r | r in front :: r in requests;
      GuardKeepsHistoryWithinLimit(client, maxAttempts, config, front);
      GuardKeepsLimit(Run(last.id, client, maxAttempts), config, History(client, maxAttempts, front), last.listed);
    }
  }

  lemma NothingExceeds(maxAttempts: int)
    ensures WithinLimit(map[], maxAttempts)
  {
  }

  // The case in which the limit is overrun, with a backend that is down: runs over the
  // first job alone use up all its attempts but one; then it is listed with one more job
  // than the minimum, and its chunk is halved.

  function SomeJobs(n: nat): seq<Job> {
    seq(n, i => Job(i, 0, Some(0)))
  }

  function Down(n: nat): Outcome { ServerError(None) }

  function FirstJobAlone(config: Config): Request {
    Request(None, config, SomeJobs(1))
  }

  /** The first job's event after k failed attempts that left it some. */
  function FirstEvent(k: nat): Events {
    if k == 0 then map[] else map[KeyOf(SomeJobs(1)[0]) := SyncEvent(Failed, k, None)]
  }

  function Alone(config: Config, k: nat): seq<Request> {
    if k == 0 then [] else Alone(config, k - 1) + [FirstJobAlone(config)]
  }

  /** One job, listed alone, with a backend that is down. */
  lemma OneJobFails(run: Run, config: Config, w: World, job: Job)
    requires config.minBatchSize >= 1 && job.backend.Some?
    requires (forall n :: run.client(n) == Down(n)) && IsCandidate(w.events, run.maxAttempts, job)
    ensures RunOver(run, config, w, [job]).world.events
            == w.events[KeyOf(job) := Rejected(Prepared(w.events, KeyOf(job), run.id), run.maxAttempts)]
  {
    hide RunOver;
    OneJobRuns(run, config, w, job);
    assert run.client(|w.log|) == Down(|w.log|);
    assert KeySet([job]) == {KeyOf(job)};
  }

  lemma HistorySnoc(client: nat -> Outcome, maxAttempts: int, requests: seq<Request>, last: Request)
    requires last.config.minBatchSize >= 1
    ensures History(client, maxAttempts, requests + [last])
            == RunOver(Run(last.id, client, maxAttempts), last.config, History(client, maxAttempts, requests),
                       last.listed).world
  {
    hide RunOver;
    assert (requests + [last])[..|requests|] == requests;
  }

  lemma NextFirstEvent(config: Config, maxAttempts: int, k: nat, w: World)
    requires config.minBatchSize >= 1 && config.limit >= 1 && k + 1 < maxAttempts && w.events == FirstEvent(k)
    ensures RunOver(Run(None, Down, maxAttempts), config, w, SomeJobs(1)).world.events == FirstEvent(k + 1)
  {
    hide RunOver;
    var job := SomeJobs(1)[0];
    assert SomeJobs(1) == [job];
    OneJobFails(Run(None, Down, maxAttempts), config, w, job);
  }

  lemma NoRunsYet(config: Config, maxAttempts: int)
    ensures Alone(config, 0) == [] && History(Down, maxAttempts, []) == NOTHING && FirstEvent(0) == NOTHING.events
  {
  }

  /** The runs over the first job alone. */
  lemma {:induction false} AloneCosts(config: Config, maxAttempts: int, k: nat)
    requires config.minBatchSize >= 1 && config.limit >= 1 && k < maxAttempts
    ensures History(Down, maxAttempts, Alone(config, k)).events == FirstEvent(k)
  {
    hide History, RunOver, FirstEvent, SomeJobs;
    if k == 0 {
      NoRunsYet(config, maxAttempts);
    } else {
      var before := Alone(config, k - 1);
      assert Alone(config, k) == before + [FirstJobAlone(config)];
      hide Alone;
      AloneCosts(config, maxAttempts, k - 1);
      HistorySnoc(Down, maxAttempts, before, FirstJobAlone(config));
      NextFirstEvent(config, maxAttempts, k - 1, History(Down, maxAttempts, before));
    }
  }

  lemma {:induction false} AllQualify(events: Events, maxAttempts: int, jobs: seq<Job>)
    requires forall job | job in jobs :: IsCandidate(events, maxAttempts, job)
    ensures Qualified(events, maxAttempts, jobs) == jobs
  {
    if jobs != [] {
      var front := jobs[..|jobs| - 1];
      AllQualify(events, maxAttempts, front);
      assert jobs == front + [jobs[|jobs| - 1]];
    }
  }

  /** While the backend is down, each submission costs each job of the chunk an attempt. */
  lemma DownCostsAnAttempt(run: Run, w: World, chunk: seq<Job>, key: Key)
    requires forall n :: run.client(n) == Down(n)
    requires key.hash.OfBackend? && (key in KeySet(chunk) ==> !IsSent(w.events, key))
    ensures Attempts(ChunkWorld(run, w, chunk).events, key)
            == Attempts(w.events, key) + One(key in KeySet(chunk))
    ensures key in KeySet(chunk) ==> !IsSent(ChunkWorld(run, w, chunk).events, key)
  {
    ChunkMoves(run, w, chunk, key);
    ValidKeysFit(chunk);
  }

  lemma {:induction false} SettleCostsAnAttempt(run: Run, config: Config, p: Progress, chunk: seq<Job>, key: Key)
    requires config.minBatchSize >= 1 && chunk != []
    requires forall n :: run.client(n) == Down(n)
    requires key.hash.OfBackend? && key == KeyOf(chunk[0]) && !IsSent(p.world.events, key)
    ensures Attempts(Settle(run, config, p, chunk).world.events, key)
            >= Attempts(p.world.events, key) + (if config.adaptive && |chunk| > config.minBatchSize then 2 else 1)
    decreases |chunk|
  {
    hide ChunkWorld, ValidKeys;
    ValidKeysFit(chunk);
    assert key in KeySet(chunk) by { assert chunk[0] in chunk; }
    DownCostsAnAttempt(run, p.world, chunk, key);
    var result := ResultOf(run, p.world, chunk);
    assert ValidKeys(chunk) != [] by { assert key in ValidKeys(chunk); }
    assert run.client(|p.world.log|) == Down(|p.world.log|);
    if RetrySmaller(config, result, |chunk|) {
      NextSizeShrinks(config, |chunk|);
      var next := NextSize(config, |chunk|);
      SettleCostsAnAttempt(run, config,
        Progress(ChunkWorld(run, p.world, chunk), CountedRetry(p.tally, result, next)), chunk[..next], key);
    }
  }

  lemma {:induction false} SubmittedGrows(short: seq<Submission>, long: seq<Submission>, key: Key)
    requires short <= long
    ensures Submitted(short, key) <= Submitted(long, key)
    decreases |long|
  {
    if short != long {
      SubmittedGrows(short, long[..|long| - 1], key);
    }
  }

  lemma {:induction false} SettleExtendsLog(run: Run, config: Config, p: Progress, chunk: seq<Job>)
    requires config.minBatchSize >= 1 && chunk != []
    ensures p.world.log <= Settle(run, config, p, chunk).world.log
    decreases |chunk|
  {
    hide ValidKeys, ChunkEvents;
    ValidKeysFit(chunk);
    var result := ResultOf(run, p.world, chunk);
    if RetrySmaller(config, result, |chunk|) {
      NextSizeShrinks(config, |chunk|);
      var next := NextSize(config, |chunk|);
      SettleExtendsLog(run, config,
        Progress(ChunkWorld(run, p.world, chunk), CountedRetry(p.tally, result, next)), chunk[..next]);
    }
  }

  lemma {:induction false} DrainExtendsLog(run: Run, config: Config, jobs: seq<Job>, p: Progress)
    requires config.minBatchSize >= 1 && p.tally.chunkSize >= 1 && p.tally.cursor <= |jobs|
    ensures p.world.log <= Drain(run, config, jobs, p).world.log
    decreases |jobs| - p.tally.cursor
  {
    hide Settle;
    if p.tally.cursor < |jobs| {
      var chunk := NextChunk(jobs, p.tally);
      SettleExtendsLog(run, config, p, chunk);
      DrainExtendsLog(run, config, jobs, Settle(run, config, p, chunk));
    }
  }

  /** With the backend down, the first job of a run loses at least one attempt, and
      at least two when its chunk can be halved. */
  lemma FirstJobLosesAttempts(run: Run, config: Config, w: World, jobs: seq<Job>, key: Key)
    requires config.minBatchSize >= 1 && DistinctJobs(jobs) && jobs != []
    requires forall n :: run.client(n) == Down(n)
    requires forall k | k in KeySet(jobs) && k.hash.OfBackend? :: !IsSent(w.events, k)
    requires key.hash.OfBackend? && key == KeyOf(jobs[0])
    ensures Attempts(Finish(run, config, w, jobs).world.events, key)
            >= Attempts(w.events, key)
               + (if config.adaptive && FirstChunk(config, jobs) > config.minBatchSize then 2 else 1)
  {
    hide Counts, Settle, DistinctJobs;
    var p := Progress(w, StartTally(config));
    var chunk := NextChunk(jobs, p.tally);
    var q := Settle(run, config, p, chunk);
    assert KeySet(jobs[0..]) == KeySet(jobs) by { assert jobs[0..] == jobs; }
    assert !IsSent(w.events, key) by { assert jobs[0] in jobs; }
    assert Counts(config, jobs, p.tally) by { StartCounts(config, jobs); }
    assert forall k :: Tracked(jobs, w, p, k);
    SettleCostsAnAttempt(run, config, p, chunk, key);
    SettleKeepsGood(run, config, jobs, w, p, chunk);
    assert Tracked(jobs, w, q, key);
    RunKeepsGood(run, config, w, jobs);
    var end := Finish(run, config, w, jobs);
    assert Tracked(jobs, w, end, key);
    DrainExtendsLog(run, config, jobs, q);
    assert q.world.log <= end.world.log;
    SubmittedGrows(q.world.log, end.world.log, key);
  }

  lemma StartCounts(config: Config, jobs: seq<Job>)
    requires config.minBatchSize >= 1
    ensures Counts(config, jobs, StartTally(config))
  {
  }

  /** The requests that overrun the limit: the first job alone as often as it survives
      that, then it and as many others as a chunk that can be halved needs. */
  function Rehearsed(config: Config, maxAttempts: int): seq<Request> {
    if maxAttempts >= 1 then Alone(config, maxAttempts - 1) else []
  }

  function LastListing(config: Config, maxAttempts: int): seq<Job>
    requires config.minBatchSize >= 1
  {
    SomeJobs(if maxAttempts >= 1 then config.minBatchSize + 1 else 1)
  }

  function EventsBefore(maxAttempts: int): Events {
    if maxAttempts >= 1 then FirstEvent(maxAttempts - 1) else map[]
  }

  lemma AttemptsBefore(maxAttempts: int)
    ensures Attempts(EventsBefore(maxAttempts), KeyOf(SomeJobs(1)[0])) == Max(maxAttempts, 1) - 1
  {
  }

  lemma RehearsedWorld(config: Config, maxAttempts: int)
    requires config.minBatchSize >= 1 && !CannotOvershoot(maxAttempts, config)
    ensures History(Down, maxAttempts, Rehearsed(config, maxAttempts)).events == EventsBefore(maxAttempts)
  {
    hide History, Alone, FirstEvent;
    NoRunsYet(config, maxAttempts);
    if maxAttempts >= 1 {
      AloneCosts(config, maxAttempts, maxAttempts - 1);
    }
  }

  lemma LastListingQualifies(config: Config, maxAttempts: int)
    requires config.minBatchSize >= 1 && !CannotOvershoot(maxAttempts, config)
    ensures var listed := LastListing(config, maxAttempts);
            && listed[0] == SomeJobs(1)[0]
            && DistinctJobs(listed)
            && Candidates(EventsBefore(maxAttempts), maxAttempts, listed, config.limit) == listed
  {
    var listed := LastListing(config, maxAttempts);
    forall job | job in listed ensures IsCandidate(EventsBefore(maxAttempts), maxAttempts, job) {
    }
    AllQualify(EventsBefore(maxAttempts), maxAttempts, listed);
    assert |listed| == 1 ==> listed[..1] == listed;
  }

  lemma {:induction false} AloneUnder(config: Config, k: nat)
    ensures AllUnder(config, Alone(config, k))
  {
    if k > 0 {
      AloneUnder(config, k - 1);
      assert DistinctJobs(FirstJobAlone(config).listed);
    }
  }

  lemma RehearsedUnder(config: Config, maxAttempts: int)
    requires config.minBatchSize >= 1
    ensures AllUnder(config, Rehearsed(config, maxAttempts) + [Request(None, config, LastListing(config, maxAttempts))])
  {
    assert DistinctJobs(LastListing(config, maxAttempts));
    hide DistinctJobs, SomeJobs;
    if maxAttempts >= 1 {
      AloneUnder(config, maxAttempts - 1);
    }
  }

  lemma OvershootsWithoutGuard(config: Config, maxAttempts: int)
    requires config.minBatchSize >= 1 && !CannotOvershoot(maxAttempts, config)
    ensures !StaysWithinLimit(maxAttempts, config)
  {
    hide Finish, Candidates, DistinctJobs, WithinLimit, SomeJobs, AllUnder, Attempts, History, FirstEvent, EventsBefore,
         Alone, Rehearsed;
    FirstJobIsOfBackend(config, maxAttempts);
    var before, listed := Rehearsed(config, maxAttempts), LastListing(config, maxAttempts);
    var last := Request(None, config, listed);
    var w, run, key := History(Down, maxAttempts, before), Run(None, Down, maxAttempts), KeyOf(listed[0]);
    RehearsedWorld(config, maxAttempts);
    AttemptsBefore(maxAttempts);
    RehearsedUnder(config, maxAttempts);
    LastListingQualifies(config, maxAttempts);
    HistorySnoc(Down, maxAttempts, before, last);
    CandidatesAreUnsent(w.events, maxAttempts, listed, config.limit);
    FirstJobLosesAttempts(run, config, w, listed, key);
    ExceedsLimit(History(Down, maxAttempts, before + [last]).events, maxAttempts, key);
  }

  lemma FirstJobIsOfBackend(config: Config, maxAttempts: int)
    requires config.minBatchSize >= 1
    ensures LastListing(config, maxAttempts) != []
    ensures KeyOf(LastListing(config, maxAttempts)[0]).hash.OfBackend?
    ensures |LastListing(config, maxAttempts)| == if maxAttempts >= 1 then config.minBatchSize + 1 else 1
  {
  }

  lemma ExceedsLimit(events: Events, maxAttempts: int, key: Key)
    requires key.hash.OfBackend? && Attempts(events, key) > Max(maxAttempts, 0)
    ensures !WithinLimit(events, maxAttempts)
  {
  }

  /** The worker's attempt limit holds in every sequence of runs with the same settings
      exactly when it allows an attempt at all and the first chunk cannot be halved. */
  lemma LimitHoldsExactlyUnderGuard(config: Config, maxAttempts: int)
    requires config.minBatchSize >= 1
    ensures StaysWithinLimit(maxAttempts, config) <==> CannotOvershoot(maxAttempts, config)
  {
    hide WithinLimit, History, AllUnder;
    if CannotOvershoot(maxAttempts, config) {
      forall client: nat -> Outcome, requests: seq<Request> | AllUnder(config, requests)
        ensures WithinLimit(History(client, maxAttempts, requests).events, maxAttempts)
      {
        GuardKeepsHistoryWithinLimit(client, maxAttempts, config, requests);
      }
    } else {
      OvershootsWithoutGuard(config, maxAttempts);
    }
  }
}
