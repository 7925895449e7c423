/** The adaptive batching loop of the backend sync (src/modules/sync/worker.py). */
module SyncWorker {
  import opened Wrappers
  import opened SyncEvents

  const BACKEND_SYNC_MAX_BATCH_SIZE: nat := 25

  // ---------------------------------------------------------------------
  // The backend, as the worker sees it
  // ---------------------------------------------------------------------

  datatype Outcome = Ok(code: nat) | ClientError(code: nat) | ServerError(status: Option<nat>)

  datatype StatusClass = Empty | Contract | Transport | Hundreds(digit: nat)

  datatype Submission = Submission(keys: seq<Key>, outcome: Outcome)

  /** The events table and everything submitted to the backend so far. */
  datatype World = World(events: Events, log: seq<Submission>)

  /** A backend with arbitrary behaviour: it may answer its n-th call in any way. */
  class BackendSyncClient {
    const behaviour: nat -> Outcome
    var log: seq<Submission>

    constructor (behaviour: nat -> Outcome)
      ensures this.behaviour == behaviour && log == []
    {
      this.behaviour := behaviour;
      log := [];
    }

    method SyncJobs(keys: seq<Key>) returns (outcome: Outcome)
      modifies this
      ensures outcome == behaviour(|old(log)|)
      ensures log == old(log) + [Submission(keys, outcome)]
    {
      outcome := behaviour(|log|);
      log := log + [Submission(keys, outcome)];
    }
  }

  // ---------------------------------------------------------------------
  // Candidates
  // ---------------------------------------------------------------------

  /** Jobs the contract rejects have no event to consult and always qualify. */
  predicate IsCandidate(events: Events, maxAttempts: int, job: Job) {
    job.backend.None? ||
    match FindEvent(events, KeyOf(job))
    case None => true
    case Some(event) => IsRetryable(event, maxAttempts)
  }

  function Qualified(events: Events, maxAttempts: int, jobs: seq<Job>): seq<Job> {
    if jobs == [] then []
    else
      var last := jobs[|jobs| - 1];
      Qualified(events, maxAttempts, jobs[..|jobs| - 1])
      + if IsCandidate(events, maxAttempts, last) then [last] else []
  }

  /** The first `limit` jobs that qualify. The limit is only looked at after a job
      has been considered, so a limit below one still admits the first listed job. */
  function Candidates(events: Events, maxAttempts: int, listed: seq<Job>, limit: int): seq<Job> {
    var all := Qualified(events, maxAttempts, if limit >= 1 || listed == [] then listed else listed[..1]);
    if 1 <= limit <= |all| then all[..limit] else all
  }

  // ---------------------------------------------------------------------
  // One chunk
  // ---------------------------------------------------------------------

  datatype ChunkResult = ChunkResult(sent: nat, failed: nat, statusClass: StatusClass, retryable: bool)

  function KeySet(jobs: seq<Job>): set<Key> {
    set job | job in jobs :: KeyOf(job)
  }

  function ValidKeys(jobs: seq<Job>): seq<Key> {
    if jobs == [] then []
    else
      var last := jobs[|jobs| - 1];
      ValidKeys(jobs[..|jobs| - 1]) + if last.backend.Some? then [KeyOf(last)] else []
  }

  /** How many attempts an error leaves a submitted job. */
  function Allowance(outcome: Outcome, maxAttempts: int): int {
    if outcome.ClientError? && outcome.code != 404 then 1 else maxAttempts
  }

  function Recorded(event: SyncEvent, key: Key, outcome: Outcome, maxAttempts: int): SyncEvent {
    if key.hash.OfNormalized? then Rejected(event, 1)
    else if outcome.Ok? then Accepted(event)
    else Rejected(event, Allowance(outcome, maxAttempts))
  }

  function ClassOf(outcome: Outcome): StatusClass {
    match outcome
    case Ok(code) => Hundreds(code / 100)
    case ClientError(_) => Hundreds(4)
    case ServerError(Some(code)) => if code == 0 then Transport else Hundreds(code / 100)
    case ServerError(None) => Transport
  }

  function ChunkEvents(events: Events, chunk: seq<Job>, run: Option<RunId>, outcome: Outcome,
                       maxAttempts: int): Events
  {
    map key | key in events.Keys + KeySet(chunk) ::
      if key in KeySet(chunk) then Recorded(Prepared(events, key, run), key, outcome, maxAttempts)
      else events[key]
  }

  function ChunkWorld(run: Run, w: World, chunk: seq<Job>): World {
    var outcome := run.client(|w.log|);
    World(ChunkEvents(w.events, chunk, run.id, outcome, run.maxAttempts),
          if ValidKeys(chunk) == [] then w.log else w.log + [Submission(ValidKeys(chunk), outcome)])
  }

  function ResultOf(run: Run, w: World, chunk: seq<Job>): ChunkResult
    requires |ValidKeys(chunk)| <= |chunk|
  {
    var outcome := run.client(|w.log|);
    var valid := |ValidKeys(chunk)|;
    if chunk == [] then ChunkResult(0, 0, Empty, false)
    else if valid == 0 then ChunkResult(0, |chunk|, Contract, false)
    else if outcome.Ok? then ChunkResult(valid, |chunk| - valid, ClassOf(outcome), false)
    else ChunkResult(0, |chunk|, ClassOf(outcome), outcome.ServerError? || outcome.code == 404)
  }

  lemma {:induction false} ValidKeysFit(jobs: seq<Job>)
    ensures |ValidKeys(jobs)| <= |jobs|
    ensures forall key :: key in ValidKeys(jobs) <==> key in KeySet(jobs) && key.hash.OfBackend?
  {
    if jobs != [] {
      var front, last := jobs[..|jobs| - 1], jobs[|jobs| - 1];
      ValidKeysFit(front);
      assert jobs == front + [last];
      assert KeySet(jobs) == KeySet(front) + {KeyOf(last)};
    }
  }

  // ---------------------------------------------------------------------
  // A run
  // ---------------------------------------------------------------------

  datatype Config = Config(limit: int, batchSize: Option<int>, minBatchSize: int, adaptive: bool)

  /** Who submits, to whom, and how often. */
  datatype Run = Run(id: Option<RunId>, client: nat -> Outcome, maxAttempts: int)

  /** The counters of a run, the next job to submit and the chunks already settled. */
  datatype Tally = Tally(
    cursor: nat, chunkSize: nat, sent: nat, failed: nat, chunksAttempted: nat, chunksFailed: nat,
    reductions: nat, classes: multiset<StatusClass>, settled: seq<seq<Job>>)

  datatype Progress = Progress(world: World, tally: Tally)

  function Min(a: int, b: int): int { if a <= b then a else b }
  function Max(a: int, b: int): int { if a >= b then a else b }

  function InitialChunkSize(config: Config): (size: nat)
    ensures 1 <= size <= BACKEND_SYNC_MAX_BATCH_SIZE
  {
    var requested := if config.batchSize.Some? && config.batchSize.value != 0
                     then config.batchSize.value else config.limit;
    Min(Max(requested, 1), BACKEND_SYNC_MAX_BATCH_SIZE)
  }

  predicate RetrySmaller(config: Config, result: ChunkResult, size: nat) {
    config.adaptive && result.retryable && result.sent == 0 && size > config.minBatchSize
  }

  function NextSize(config: Config, size: nat): int {
    Max(config.minBatchSize, (size + 1) / 2)
  }

  /** Halving a chunk above the minimum always shrinks it and never empties it. */
  lemma NextSizeShrinks(config: Config, size: nat)
    requires 1 <= config.minBatchSize < size
    ensures 1 <= NextSize(config, size) < size
    ensures config.minBatchSize <= NextSize(config, size)
  {
  }

  function CountedRetry(t: Tally, result: ChunkResult, next: nat): Tally {
    t.(chunksAttempted := t.chunksAttempted + 1, classes := t.classes + multiset{result.statusClass},
       chunksFailed := t.chunksFailed + 1, reductions := t.reductions + 1, chunkSize := next)
  }

  function CountedSettled(t: Tally, result: ChunkResult, chunk: seq<Job>): Tally {
    t.(chunksAttempted := t.chunksAttempted + 1, classes := t.classes + multiset{result.statusClass},
       sent := t.sent + result.sent, failed := t.failed + result.failed,
       chunksFailed := t.chunksFailed + (if result.failed > 0 then 1 else 0),
       cursor := t.cursor + |chunk|, settled := t.settled + [chunk])
  }

  /** Submits the chunk at the cursor, shrinking it until it settles. */
  function Settle(run: Run, config: Config, p: Progress, chunk: seq<Job>): (q: Progress)
    requires config.minBatchSize >= 1 && chunk != []
    ensures p.tally.cursor < q.tally.cursor <= p.tally.cursor + |chunk|
    ensures p.tally.chunkSize >= 1 ==> q.tally.chunkSize >= 1
    decreases |chunk|
  {
    ValidKeysFit(chunk);
    var result := ResultOf(run, p.world, chunk);
    var world := ChunkWorld(run, p.world, chunk);
    if RetrySmaller(config, result, |chunk|) then
      NextSizeShrinks(config, |chunk|);
      var next := NextSize(config, |chunk|);
      Settle(run, config, Progress(world, CountedRetry(p.tally, result, next)), chunk[..next])
    else
      Progress(world, CountedSettled(p.tally, result, chunk))
  }

  function NextChunk(jobs: seq<Job>, t: Tally): seq<Job>
    requires t.cursor <= |jobs|
  {
    jobs[t.cursor..t.cursor + Min(t.chunkSize, |jobs| - t.cursor)]
  }

  function Drain(run: Run, config: Config, jobs: seq<Job>, p: Progress): Progress
    requires config.minBatchSize >= 1 && p.tally.chunkSize >= 1 && p.tally.cursor <= |jobs|
    decreases |jobs| - p.tally.cursor
  {
    if p.tally.cursor == |jobs| then p
    else Drain(run, config, jobs, Settle(run, config, p, NextChunk(jobs, p.tally)))
  }

  function StartTally(config: Config): Tally {
    Tally(0, InitialChunkSize(config), 0, 0, 0, 0, 0, multiset{}, [])
  }

  datatype ZeroSentReason = NoEligibleJobs | AllCandidatesFailed | NoneSent

  function InferZeroSentReason(attempted: nat, sent: nat, failed: nat): Option<ZeroSentReason> {
    if sent > 0 then None
    else if attempted == 0 then Some(NoEligibleJobs)
    else if failed >= attempted then Some(AllCandidatesFailed)
    else Some(NoneSent)
  }

  datatype Report = Report(
    attempted: nat, sent: nat, failed: nat, chunksAttempted: nat, chunksFailed: nat,
    reductions: nat, classes: multiset<StatusClass>, zeroSentReason: Option<ZeroSentReason>)

  datatype SyncError = InvalidMinBatchSize

  function ReportOf(jobs: seq<Job>, t: Tally): Report {
    Report(|jobs|, t.sent, t.failed, t.chunksAttempted, t.chunksFailed, t.reductions, t.classes,
           InferZeroSentReason(|jobs|, t.sent, t.failed))
  }

  /** The state in which a run over its candidates ends. */
  function Finish(run: Run, config: Config, w: World, jobs: seq<Job>): Progress
    requires config.minBatchSize >= 1
  {
    Drain(run, config, jobs, Progress(w, StartTally(config)))
  }

  predicate DistinctJobs(jobs: seq<Job>) {
    forall i, j :: 0 <= i < j < |jobs| ==> jobs[i].id != jobs[j].id
  }

  // ---------------------------------------------------------------------
  // The worker
  // ---------------------------------------------------------------------

  class BackendSyncWorker {
    const events: SyncEventRepository
    const client: BackendSyncClient
    const maxAttempts: int

    constructor (events: SyncEventRepository, client: BackendSyncClient, maxAttempts: int)
      ensures this.events == events && this.client == client && this.maxAttempts == maxAttempts
    {
      this.events, this.client, this.maxAttempts := events, client, maxAttempts;
    }

    ghost function Now(): World
      reads events, client
    {
      World(events.events, client.log)
    }

    method ListBackendPayloadCandidates(listed: seq<Job>, limit: int) returns (candidates: seq<Job>)
      ensures candidates == Candidates(events.events, maxAttempts, listed, limit)
    {
      hide Qualified;
      candidates := [];
      ghost var all := events.events;
      var i := 0;
      NoneQualified(all, maxAttempts);
      while i < |listed|
        invariant 0 <= i <= |listed|
        invariant candidates == Qualified(all, maxAttempts, listed[..i])
        invariant i > 0 ==> |candidates| < limit
      {
        var job := listed[i];
        assert listed[..i + 1] == listed[..i] + [job];
        QualifiedSnoc(all, maxAttempts, listed[..i], job);
        if job.backend.None? {
          candidates := candidates + [job];
        } else {
          var event := FindEvent(events.events, KeyOf(job));
          if event.None? || IsRetryable(event.value, maxAttempts) {
            candidates := candidates + [job];
          }
        }
        i := i + 1;
        if |candidates| >= limit {
          QualifiedPrefix(all, maxAttempts, listed, i);
          return;
        }
      }
      assert listed[..i] == listed;
    }

    method SyncChunk(run: Option<RunId>, jobs: seq<Job>) returns (result: ChunkResult)
      requires DistinctJobs(jobs)
      modifies events, client
      ensures Now() == ChunkWorld(Run(run, client.behaviour, maxAttempts), old(Now()), jobs)
      ensures |ValidKeys(jobs)| <= |jobs|
      ensures result == ResultOf(Run(run, client.behaviour, maxAttempts), old(Now()), jobs)
    {
      ghost var before := events.events;
      ghost var answer := client.behaviour(|client.log|);
      ValidKeysFit(jobs);
      PassesMakeChunkEvents(before, jobs, run, answer, maxAttempts);
      if jobs == [] {
        return ChunkResult(0, 0, Empty, false);
      }
      var submitted, failed := PrepareChunk(run, jobs);
      if submitted == [] {
        return ChunkResult(0, failed, Contract, false);
      }
      var outcome := client.SyncJobs(submitted);
      RecordChunk(submitted, outcome);
      if outcome.Ok? {
        result := ChunkResult(|submitted|, failed, Hundreds(outcome.code / 100), false);
      } else if outcome.ClientError? {
        result := ChunkResult(0, failed + |submitted|, Hundreds(4), outcome.code == 404);
      } else {
        var statusClass := if outcome.status.Some? && outcome.status.value != 0
                           then Hundreds(outcome.status.value / 100) else Transport;
        result := ChunkResult(0, failed + |submitted|, statusClass, true);
      }
    }

    /** The first pass: every job gets its event, and the jobs that the contract
        rejects are dead-lettered on the spot. */
    method PrepareChunk(run: Option<RunId>, jobs: seq<Job>) returns (submitted: seq<Key>, failed: nat)
      modifies events
      ensures events.events == PrepareEach(old(events.events), jobs, run)
      ensures submitted == ValidKeys(jobs) && failed + |submitted| == |jobs|
    {
      submitted, failed := [], 0;
      var i := 0;
      while i < |jobs|
        invariant 0 <= i <= |jobs|
        invariant submitted == ValidKeys(jobs[..i]) && failed + |submitted| == i
        invariant events.events == PrepareEach(old(events.events), jobs[..i], run)
      {
        var job := jobs[i];
        assert jobs[..i + 1][..i] == jobs[..i];
        events.PrepareEvent(KeyOf(job), run);
        if job.backend.None? {
          events.RecordFailure(KeyOf(job), 1);
          failed := failed + 1;
        } else {
          submitted := submitted + [KeyOf(job)];
        }
        i := i + 1;
      }
      assert jobs[..i] == jobs;
    }

    /** The second pass: the backend's answer is recorded for every submitted job. */
    method RecordChunk(submitted: seq<Key>, outcome: Outcome)
      requires forall key | key in submitted :: key in events.events && key.hash.OfBackend?
      modifies events
      ensures events.events == RecordEach(old(events.events), submitted, outcome, maxAttempts)
    {
      var j := 0;
      while j < |submitted|
        invariant 0 <= j <= |submitted|
        invariant events.events == RecordEach(old(events.events), submitted[..j], outcome, maxAttempts)
      {
        assert submitted[..j + 1][..j] == submitted[..j];
        var key := submitted[j];
        assert key in submitted;
        if outcome.Ok? {
          events.RecordSuccess(key);
        } else {
          events.RecordFailure(key, Allowance(outcome, maxAttempts));
        }
        j := j + 1;
      }
      assert submitted[..j] == submitted;
    }

    /** The inner loop: the chunk at the cursor is submitted again, halved, until
        an attempt settles it. */
    method SettleChunk(id: Option<RunId>, config: Config, before: Tally, whole: seq<Job>) returns (t: Tally)
      requires config.minBatchSize >= 1 && whole != [] && DistinctJobs(whole)
      modifies events, client
      ensures Progress(Now(), t)
              == Settle(Run(id, client.behaviour, maxAttempts), config, Progress(old(Now()), before), whole)
    {
      hide ChunkWorld, ResultOf, ValidKeys, DistinctJobs;
      ghost var run := Run(id, client.behaviour, maxAttempts);
      t := before;
      var chunk := whole;
      ghost var end := t;
      while true
        invariant chunk != [] && DistinctJobs(chunk)
        invariant Settle(run, config, Progress(Now(), t), chunk)
                  == Settle(run, config, Progress(old(Now()), before), whole)
        decreases |chunk|
      {
        ghost var p, tried := Progress(Now(), t), chunk;
        var result := SyncChunk(id, chunk);
        t := t.(classes := t.classes + multiset{result.statusClass}, chunksAttempted := t.chunksAttempted + 1);
        var retrySmaller := config.adaptive && result.retryable && result.sent == 0
                            && |chunk| > config.minBatchSize;
        if retrySmaller {
          t := t.(chunksFailed := t.chunksFailed + 1);
        } else {
          t := t.(sent := t.sent + result.sent, failed := t.failed + result.failed);
          if result.failed > 0 {
            t := t.(chunksFailed := t.chunksFailed + 1);
          }
        }
        if retrySmaller {
          NextSizeShrinks(config, |chunk|);
          var nextSize := NextSize(config, |chunk|);
          if nextSize == |chunk| {
            break;
          }
          t := t.(reductions := t.reductions + 1, chunkSize := Max(nextSize, config.minBatchSize));
          DistinctSlice(chunk, 0, t.chunkSize);
          chunk := chunk[..t.chunkSize];
          assert t == CountedRetry(p.tally, result, NextSize(config, |tried|));
          assert Settle(run, config, p, tried) == Settle(run, config, Progress(Now(), t), chunk);
          continue;
        }
        end := CountedSettled(p.tally, result, tried);
        assert Settle(run, config, p, tried) == Progress(Now(), end);
        break;
      }
      t := t.(cursor := t.cursor + |chunk|, settled := t.settled + [chunk]);
      assert t == end;
      assert Progress(Now(), t) == Settle(run, config, Progress(old(Now()), before), whole);
    }

    method SyncEligibleJobs(id: Option<RunId>, config: Config, listed: seq<Job>)
      returns (report: Result<Report, SyncError>, t: Tally)
      requires DistinctJobs(listed)
      modifies events, client
      ensures config.minBatchSize <= 0 ==> report == Failure(InvalidMinBatchSize) && Now() == old(Now())
      ensures config.minBatchSize >= 1 ==>
                var jobs := Candidates(old(events.events), maxAttempts, listed, config.limit);
                && Progress(Now(), t) == Finish(Run(id, client.behaviour, maxAttempts), config, old(Now()), jobs)
                && report == Success(ReportOf(jobs, t))
    {
      hide Settle, ChunkWorld, ResultOf, ValidKeys, DistinctJobs, Candidates, IsCandidate;
      t := StartTally(config);
      var jobs := ListBackendPayloadCandidates(listed, config.limit);
      if config.minBatchSize <= 0 {
        return Failure(InvalidMinBatchSize), t;
      }
      ghost var run := Run(id, client.behaviour, maxAttempts);
      CandidatesDistinct(events.events, maxAttempts, listed, config.limit);
      while t.cursor < |jobs|
        invariant t.cursor <= |jobs| && t.chunkSize >= 1
        invariant Drain(run, config, jobs, Progress(Now(), t)) == Finish(run, config, old(Now()), jobs)
      {
        var currentChunkSize := Min(t.chunkSize, |jobs| - t.cursor);
        ghost var p := Progress(Now(), t);
        ghost var q := Settle(run, config, p, NextChunk(jobs, t));
        assert Drain(run, config, jobs, p) == Drain(run, config, jobs, q);
        DistinctSlice(jobs, t.cursor, t.cursor + currentChunkSize);
        t := SettleChunk(id, config, t, jobs[t.cursor..t.cursor + currentChunkSize]);
        assert Progress(Now(), t) == q;
      }
      assert Progress(Now(), t) == Finish(run, config, old(Now()), jobs);
      report := Success(ReportOf(jobs, t));
    }
  }

  // ---------------------------------------------------------------------
  // What the worker's loops keep
  // ---------------------------------------------------------------------

  function PrepareEach(events: Events, jobs: seq<Job>, run: Option<RunId>): Events {
    if jobs == [] then events
    else
      var last := jobs[|jobs| - 1];
      var now := PrepareEach(events, jobs[..|jobs| - 1], run);
      var event := Prepared(now, KeyOf(last), run);
      now[KeyOf(last) := if last.backend.None? then Rejected(event, 1) else event]
  }

  function RecordEach(events: Events, keys: seq<Key>, outcome: Outcome, maxAttempts: int): Events
    requires forall key | key in keys :: key in events
    ensures RecordEach(events, keys, outcome, maxAttempts).Keys == events.Keys
  {
    if keys == [] then events
    else
      var last := keys[|keys| - 1];
      var now := RecordEach(events, keys[..|keys| - 1], outcome, maxAttempts);
      now[last := Recorded(now[last], last, outcome, maxAttempts)]
  }

  /** What the first pass makes of one event. */
  function PreparedIn(events: Events, jobs: seq<Job>, run: Option<RunId>, key: Key): Option<SyncEvent> {
    if key !in KeySet(jobs) then FindEvent(events, key)
    else if key.hash.OfNormalized? then Some(Rejected(Prepared(events, key, run), 1))
    else Some(Prepared(events, key, run))
  }

  lemma DistinctFront(jobs: seq<Job>)
    requires DistinctJobs(jobs) && jobs != []
    ensures DistinctJobs(jobs[..|jobs| - 1])
    ensures KeyOf(jobs[|jobs| - 1]) !in KeySet(jobs[..|jobs| - 1])
    ensures KeySet(jobs) == KeySet(jobs[..|jobs| - 1]) + {KeyOf(jobs[|jobs| - 1])}
  {
    var front, last := jobs[..|jobs| - 1], jobs[|jobs| - 1];
    assert jobs == front + [last];
  }

  lemma {:induction false} PrepareEachAt(events: Events, jobs: seq<Job>, run: Option<RunId>, key: Key)
    requires DistinctJobs(jobs)
    ensures FindEvent(PrepareEach(events, jobs, run), key) == PreparedIn(events, jobs, run, key)
  {
    if jobs != [] {
      hide DistinctJobs, KeySet, Rejected;
      var front, last := jobs[..|jobs| - 1], jobs[|jobs| - 1];
      DistinctFront(jobs);
      PrepareEachAt(events, front, run, key);
      PrepareEachAt(events, front, run, KeyOf(last));
    } else {
      assert key !in KeySet(jobs);
    }
  }

  predicate DistinctKeys(keys: seq<Key>) {
    forall i, j | 0 <= i < j < |keys| :: keys[i] != keys[j]
  }

  lemma DistinctKeysFront(keys: seq<Key>)
    requires DistinctKeys(keys) && keys != []
    ensures DistinctKeys(keys[..|keys| - 1])
    ensures forall key :: key in keys <==> key in keys[..|keys| - 1] || key == keys[|keys| - 1]
    ensures keys[|keys| - 1] !in keys[..|keys| - 1]
  {
    assert keys == keys[..|keys| - 1] + [keys[|keys| - 1]];
  }

  lemma {:induction false} RecordEachAt(events: Events, keys: seq<Key>, outcome: Outcome, maxAttempts: int, key: Key)
    requires DistinctKeys(keys)
    requires forall k | k in keys :: k in events
    requires key in events
    ensures RecordEach(events, keys, outcome, maxAttempts)[key]
            == if key in keys then Recorded(events[key], key, outcome, maxAttempts) else events[key]
  {
    if keys != [] {
      hide DistinctKeys, Recorded;
      DistinctKeysFront(keys);
      RecordEachAt(events, keys[..|keys| - 1], outcome, maxAttempts, key);
    }
  }

  lemma SameEvents(a: Events, b: Events)
    requires forall key: Key :: FindEvent(a, key) == FindEvent(b, key)
    ensures a == b
  {
    forall key: Key ensures key in a <==> key in b {
      assert FindEvent(a, key) == FindEvent(b, key);
    }
    forall key | key in a ensures a[key] == b[key] {
      assert FindEvent(a, key) == FindEvent(b, key);
    }
  }

  lemma EventAfterChunk(events: Events, chunk: seq<Job>, run: Option<RunId>, outcome: Outcome, maxAttempts: int,
                        key: Key)
    ensures FindEvent(ChunkEvents(events, chunk, run, outcome, maxAttempts), key)
            == if key in KeySet(chunk) then Some(Recorded(Prepared(events, key, run), key, outcome, maxAttempts))
               else FindEvent(events, key)
  {
    hide KeySet, Recorded, Prepared;
  }

  /** The worker's two passes over a chunk amount to one update of each job's event. */
  lemma PassesMakeChunkEvents(events: Events, jobs: seq<Job>, run: Option<RunId>, outcome: Outcome, maxAttempts: int)
    requires DistinctJobs(jobs)
    ensures forall key | key in ValidKeys(jobs) :: key in PrepareEach(events, jobs, run)
    ensures RecordEach(PrepareEach(events, jobs, run), ValidKeys(jobs), outcome, maxAttempts)
            == ChunkEvents(events, jobs, run, outcome, maxAttempts)
  {
    hide ChunkEvents, PrepareEach, RecordEach, KeySet, ValidKeys, DistinctJobs, DistinctKeys;
    var prepared, keys := PrepareEach(events, jobs, run), ValidKeys(jobs);
    ValidKeysFit(jobs);
    ValidKeysDistinct(jobs);
    forall key | key in keys ensures key in prepared {
      PrepareEachAt(events, jobs, run, key);
    }
    var recorded := RecordEach(prepared, keys, outcome, maxAttempts);
    var settled := ChunkEvents(events, jobs, run, outcome, maxAttempts);
    forall key: Key ensures FindEvent(recorded, key) == FindEvent(settled, key) {
      PrepareEachAt(events, jobs, run, key);
      if key in prepared {
        RecordEachAt(prepared, keys, outcome, maxAttempts, key);
      }
      EventAfterChunk(events, jobs, run, outcome, maxAttempts, key);
    }
    SameEvents(recorded, settled);
  }

  lemma DistinctSlice(jobs: seq<Job>, from: nat, to: nat)
    requires DistinctJobs(jobs) && from <= to <= |jobs|
    ensures DistinctJobs(jobs[from..to])
    ensures jobs[0..to] == jobs[..to]
  {
  }

  lemma {:induction false} ValidKeysDistinct(jobs: seq<Job>)
    requires DistinctJobs(jobs)
    ensures DistinctKeys(ValidKeys(jobs))
  {
    if jobs != [] {
      var front, last := jobs[..|jobs| - 1], jobs[|jobs| - 1];
      ValidKeysDistinct(front);
      ValidKeysFit(front);
      assert KeyOf(last) !in KeySet(front);
      var keys := ValidKeys(front);
      assert forall i :: 0 <= i < |keys| ==> keys[i] in keys;
    }
  }

  lemma NoneQualified(events: Events, maxAttempts: int)
    ensures Qualified(events, maxAttempts, []) == []
  {
  }

  lemma QualifiedSnoc(events: Events, maxAttempts: int, jobs: seq<Job>, job: Job)
    ensures Qualified(events, maxAttempts, jobs + [job])
            == Qualified(events, maxAttempts, jobs) + if IsCandidate(events, maxAttempts, job) then [job] else []
  {
    assert (jobs + [job])[..|jobs|] == jobs;
  }

  /** The first jobs to qualify stay the first when more jobs are listed. */
  lemma {:induction false} QualifiedPrefix(events: Events, maxAttempts: int, listed: seq<Job>, i: nat)
    requires i <= |listed|
    ensures Qualified(events, maxAttempts, listed[..i]) <= Qualified(events, maxAttempts, listed)
    decreases |listed|
  {
    if i == |listed| {
      assert listed[..i] == listed;
    } else {
      var front := listed[..|listed| - 1];
      QualifiedPrefix(events, maxAttempts, front, i);
      assert front[..i] == listed[..i];
    }
  }

  /** Exactly the listed candidates qualify. */
  lemma {:induction false} QualifiedIsListed(events: Events, maxAttempts: int, listed: seq<Job>, job: Job)
    ensures job in Qualified(events, maxAttempts, listed)
            <==> job in listed && IsCandidate(events, maxAttempts, job)
  {
    hide IsCandidate;
    if listed != [] {
      var front, last := listed[..|listed| - 1], listed[|listed| - 1];
      assert listed == front + [last];
      QualifiedIsListed(events, maxAttempts, front, job);
    }
  }

  lemma {:induction false} QualifiedDistinct(events: Events, maxAttempts: int, listed: seq<Job>)
    requires DistinctJobs(listed)
    ensures DistinctJobs(Qualified(events, maxAttempts, listed))
  {
    hide IsCandidate;
    if listed != [] {
      var front, last := listed[..|listed| - 1], listed[|listed| - 1];
      var all := Qualified(events, maxAttempts, front);
      QualifiedDistinct(events, maxAttempts, front);
      forall i | 0 <= i < |all| ensures all[i].id != last.id {
        QualifiedIsListed(events, maxAttempts, front, all[i]);
      }
    }
  }

  lemma CandidatesDistinct(events: Events, maxAttempts: int, listed: seq<Job>, limit: int)
    requires DistinctJobs(listed)
    ensures var jobs := Candidates(events, maxAttempts, listed, limit);
            && DistinctJobs(jobs)
            && (forall job | job in jobs :: job in listed && IsCandidate(events, maxAttempts, job))
            && |jobs| <= Max(limit, 1)
  {
    var seen := if limit >= 1 || listed == [] then listed else listed[..1];
    QualifiedDistinct(events, maxAttempts, seen);
    forall job | job in Qualified(events, maxAttempts, seen)
      ensures job in listed && IsCandidate(events, maxAttempts, job)
    {
      QualifiedIsListed(events, maxAttempts, seen, job);
    }
    if limit < 1 {
      QualifiedFits(events, maxAttempts, seen);
    }
  }

  lemma {:induction false} QualifiedFits(events: Events, maxAttempts: int, listed: seq<Job>)
    ensures |Qualified(events, maxAttempts, listed)| <= |listed|
  {
    if listed != [] {
      QualifiedFits(events, maxAttempts, listed[..|listed| - 1]);
    }
  }
}
