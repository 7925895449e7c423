/** What the backend's answers do to the sync events and to the chunks of a run, told code
    by code, whatever the backend answers and over any sequence of runs. */
module SyncAnswers {
  import opened Wrappers
  import opened SyncEvents
  import opened SyncWorker
  import opened SyncHistory

  // ---------------------------------------------------------------------
  // An event is told by the submissions of its payload
  // ---------------------------------------------------------------------

  /** The answer to the last submission that held the key. */
  function LastAnswer(log: seq<Submission>, key: Key): Option<Outcome> {
    if log == [] then None
    else
      var last := log[|log| - 1];
      if key in last.keys then Some(last.outcome) else LastAnswer(log[..|log| - 1], key)
  }

  /** A missing endpoint and an error on the backend's side may go away; a payload that the
      backend refuses stays refused. */
  predicate WorthRetrying(answer: Outcome) {
    match answer
    case Ok(_) => false
    case ClientError(code) => code == 404
    case ServerError(_) => true
  }

  function StatusBehind(answer: Outcome, submissions: nat, maxAttempts: int): EventStatus {
    if answer.Ok? then Sent
    else if WorthRetrying(answer) && submissions < maxAttempts then Failed
    else DeadLetter
  }

  /** The event of a backend payload, from the submissions alone; a job without one has at
      most a dead letter. */
  predicate Told(w: World, maxAttempts: int, key: Key) {
    if key.hash.OfBackend? then
      match LastAnswer(w.log, key)
      case None => key !in w.events && Submitted(w.log, key) == 0
      case Some(answer) =>
        && key in w.events
        && w.events[key].status == StatusBehind(answer, Submitted(w.log, key), maxAttempts)
        && w.events[key].attemptCount == Submitted(w.log, key)
    else
      key in w.events ==> w.events[key].status.DeadLetter? && w.events[key].attemptCount >= 1
  }

  lemma AnswerSnoc(log: seq<Submission>, s: Submission, key: Key)
    ensures LastAnswer(log + [s], key) == if key in s.keys then Some(s.outcome) else LastAnswer(log, key)
    ensures Submitted(log + [s], key) == Submitted(log, key) + One(key in s.keys)
  {
    assert (log + [s])[..|log|] == log;
  }

  lemma ChunkTells(run: Run, w: World, chunk: seq<Job>, key: Key)
    requires Told(w, run.maxAttempts, key)
    ensures Told(ChunkWorld(run, w, chunk), run.maxAttempts, key)
  {
    hide ChunkEvents, ValidKeys, KeySet, Submitted, LastAnswer;
    ValidKeysFit(chunk);
    EventAfterChunk(w.events, chunk, run.id, run.client(|w.log|), run.maxAttempts, key);
    AnswerSnoc(w.log, Submission(ValidKeys(chunk), run.client(|w.log|)), key);
  }

  lemma {:induction false} SettleTells(run: Run, config: Config, p: Progress, chunk: seq<Job>, key: Key)
    requires config.minBatchSize >= 1 && chunk != [] && Told(p.world, run.maxAttempts, key)
    ensures Told(Settle(run, config, p, chunk).world, run.maxAttempts, key)
    decreases |chunk|
  {
    hide ChunkWorld, ValidKeys, Told;
    ValidKeysFit(chunk);
    ChunkTells(run, p.world, chunk, key);
    var result := ResultOf(run, p.world, chunk);
    if RetrySmaller(config, result, |chunk|) {
      NextSizeShrinks(config, |chunk|);
      var next := NextSize(config, |chunk|);
      SettleTells(run, config, Progress(ChunkWorld(run, p.world, chunk), CountedRetry(p.tally, result, next)),
                  chunk[..next], key);
    }
  }

  lemma {:induction false} DrainTells(run: Run, config: Config, jobs: seq<Job>, p: Progress, key: Key)
    requires config.minBatchSize >= 1 && p.tally.chunkSize >= 1 && p.tally.cursor <= |jobs|
    requires Told(p.world, run.maxAttempts, key)
    ensures Told(Drain(run, config, jobs, p).world, run.maxAttempts, key)
    decreases |jobs| - p.tally.cursor
  {
    hide Settle, Told;
    if p.tally.cursor < |jobs| {
      var chunk := NextChunk(jobs, p.tally);
      SettleTells(run, config, p, chunk, key);
      DrainTells(run, config, jobs, Settle(run, config, p, chunk), key);
    }
  }

  /** After any runs the event of a payload is told by the submissions that held it: it was
      sent if the last one was taken; it is open for another attempt if the last answer was
      a 404 or an error of the backend and attempts are left; else it is a dead letter. */
  lemma {:induction false} LastAnswerTellsTheEvent(client: nat -> Outcome, maxAttempts: int, requests: seq<Request>,
                                                   key: Key)
    ensures Told(History(client, maxAttempts, requests), maxAttempts, key)
  {
    hide Drain, Candidates;
    if requests != [] {
      hide Told;
      var front, last := requests[..|requests| - 1], requests[|requests| - 1];
      LastAnswerTellsTheEvent(client, maxAttempts, front, key);
      if last.config.minBatchSize >= 1 {
        var run, w := Run(last.id, client, maxAttempts), History(client, maxAttempts, front);
        DrainTells(run, last.config, Candidates(w.events, maxAttempts, last.listed, last.config.limit),
                   Progress(w, StartTally(last.config)), key);
      }
    }
  }

  /** So a listed job is a candidate of the next run exactly when its payload was never
      answered, or last answered by a 404 or an error of the backend with attempts left. */
  lemma CandidateUnlessAnswered(client: nat -> Outcome, maxAttempts: int, requests: seq<Request>, job: Job)
    requires job.backend.Some?
    ensures var w := History(client, maxAttempts, requests);
            IsCandidate(w.events, maxAttempts, job) <==>
            match LastAnswer(w.log, KeyOf(job))
            case None => true
            case Some(Ok(_)) => false
            case Some(ClientError(code)) => code == 404 && Submitted(w.log, KeyOf(job)) < maxAttempts
            case Some(ServerError(_)) => Submitted(w.log, KeyOf(job)) < maxAttempts
  {
    hide History, LastAnswer, Submitted;
    LastAnswerTellsTheEvent(client, maxAttempts, requests, KeyOf(job));
  }

  // ---------------------------------------------------------------------
  // Who is submitted
  // ---------------------------------------------------------------------

  lemma ChunkSubmits(run: Run, w: World, chunk: seq<Job>, key: Key)
    requires key.hash.OfBackend?
    ensures Submitted(ChunkWorld(run, w, chunk).log, key) == Submitted(w.log, key) + One(key in KeySet(chunk))
  {
    hide ChunkEvents, ValidKeys, KeySet, Submitted;
    ValidKeysFit(chunk);
    AnswerSnoc(w.log, Submission(ValidKeys(chunk), run.client(|w.log|)), key);
  }

  /** A chunk that is settled was submitted, and only jobs of the chunk were. */
  lemma {:induction false} SettleSubmits(run: Run, config: Config, p: Progress, chunk: seq<Job>, key: Key)
    requires config.minBatchSize >= 1 && chunk != [] && key.hash.OfBackend?
    ensures var q := Settle(run, config, p, chunk);
            && Submitted(p.world.log, key) <= Submitted(q.world.log, key)
            && (key in KeySet(chunk[..q.tally.cursor - p.tally.cursor]) ==>
                  Submitted(p.world.log, key) < Submitted(q.world.log, key))
            && (key !in KeySet(chunk) ==> Submitted(p.world.log, key) == Submitted(q.world.log, key))
    decreases |chunk|
  {
    hide ChunkWorld, ValidKeys, Submitted;
    ValidKeysFit(chunk);
    ChunkSubmits(run, p.world, chunk, key);
    var result := ResultOf(run, p.world, chunk);
    if RetrySmaller(config, result, |chunk|) {
      NextSizeShrinks(config, |chunk|);
      var next := NextSize(config, |chunk|);
      var r := Progress(ChunkWorld(run, p.world, chunk), CountedRetry(p.tally, result, next));
      SettleSubmits(run, config, r, chunk[..next], key);
      var q := Settle(run, config, r, chunk[..next]);
      assert chunk[..next][..q.tally.cursor - p.tally.cursor] == chunk[..q.tally.cursor - p.tally.cursor];
      assert forall job | job in chunk[..next] :: job in chunk;
    } else {
      assert chunk[..|chunk|] == chunk;
    }
  }

  lemma KeysFrom(jobs: seq<Job>, i: nat, j: nat)
    requires i <= j <= |jobs|
    ensures KeySet(jobs[i..]) == KeySet(jobs[i..j]) + KeySet(jobs[j..])
  {
    assert jobs[i..] == jobs[i..j] + jobs[j..];
  }

  lemma {:induction false} DrainSubmits(run: Run, config: Config, jobs: seq<Job>, p: Progress, key: Key)
    requires config.minBatchSize >= 1 && p.tally.chunkSize >= 1 && p.tally.cursor <= |jobs| && key.hash.OfBackend?
    ensures var end := Drain(run, config, jobs, p);
            && Submitted(p.world.log, key) <= Submitted(end.world.log, key)
            && (key in KeySet(jobs[p.tally.cursor..]) <==>
                Submitted(p.world.log, key) < Submitted(end.world.log, key))
    decreases |jobs| - p.tally.cursor
  {
    hide Settle, Submitted, KeySet;
    var i := p.tally.cursor;
    if i < |jobs| {
      var chunk := NextChunk(jobs, p.tally);
      var q := Settle(run, config, p, chunk);
      SettleSubmits(run, config, p, chunk, key);
      DrainSubmits(run, config, jobs, q, key);
      var j := q.tally.cursor;
      assert chunk[..j - i] == jobs[i..j] && chunk == jobs[i..i + |chunk|];
      KeysFrom(jobs, i, j);
      KeysFrom(jobs, i, i + |chunk|);
    } else {
      NoKeys(jobs, key);
    }
  }

  lemma NoKeys(jobs: seq<Job>, key: Key)
    ensures key !in KeySet(jobs[|jobs|..])
  {
  }

  /** A run submits exactly the backend payloads of its candidates. */
  lemma RunSubmitsItsCandidates(run: Run, config: Config, w: World, listed: seq<Job>, key: Key)
    requires config.minBatchSize >= 1 && key.hash.OfBackend?
    ensures Submitted(w.log, key) < Submitted(RunOver(run, config, w, listed).world.log, key)
            <==> key in KeySet(Candidates(w.events, run.maxAttempts, listed, config.limit))
    ensures Submitted(w.log, key) <= Submitted(RunOver(run, config, w, listed).world.log, key)
  {
    hide Drain, Candidates, Submitted, KeySet;
    var jobs := Candidates(w.events, run.maxAttempts, listed, config.limit);
    assert jobs[0..] == jobs;
    DrainSubmits(run, config, jobs, Progress(w, StartTally(config)), key);
  }

  predicate MarkedWith(events: Events, key: Key, id: Option<RunId>) {
    key in events && events[key].runId == id
  }

  lemma ChunkMarks(run: Run, w: World, chunk: seq<Job>, key: Key)
    requires key in KeySet(chunk) || MarkedWith(w.events, key, run.id)
    ensures MarkedWith(ChunkWorld(run, w, chunk).events, key, run.id)
  {
    hide ValidKeys, KeySet;
  }

  lemma {:induction false} SettleKeepsMark(run: Run, config: Config, p: Progress, chunk: seq<Job>, key: Key)
    requires config.minBatchSize >= 1 && chunk != [] && MarkedWith(p.world.events, key, run.id)
    ensures MarkedWith(Settle(run, config, p, chunk).world.events, key, run.id)
    decreases |chunk|
  {
    hide ChunkWorld, ValidKeys, MarkedWith, ResultOf;
    ValidKeysFit(chunk);
    ChunkMarks(run, p.world, chunk, key);
    var result := ResultOf(run, p.world, chunk);
    if RetrySmaller(config, result, |chunk|) {
      NextSizeShrinks(config, |chunk|);
      var next := NextSize(config, |chunk|);
      SettleKeepsMark(run, config, Progress(ChunkWorld(run, p.world, chunk), CountedRetry(p.tally, result, next)),
                      chunk[..next], key);
    }
  }

  lemma {:induction false} SettleMarks(run: Run, config: Config, p: Progress, chunk: seq<Job>, key: Key)
    requires config.minBatchSize >= 1 && chunk != []
    requires key in KeySet(chunk[..Settle(run, config, p, chunk).tally.cursor - p.tally.cursor])
    ensures MarkedWith(Settle(run, config, p, chunk).world.events, key, run.id)
    decreases |chunk|
  {
    hide ChunkWorld, ValidKeys, MarkedWith, KeySet, ResultOf;
    ValidKeysFit(chunk);
    var result := ResultOf(run, p.world, chunk);
    if RetrySmaller(config, result, |chunk|) {
      NextSizeShrinks(config, |chunk|);
      var next := NextSize(config, |chunk|);
      var r := Progress(ChunkWorld(run, p.world, chunk), CountedRetry(p.tally, result, next));
      var n := Settle(run, config, r, chunk[..next]).tally.cursor - p.tally.cursor;
      assert chunk[..next][..n] == chunk[..n];
      SettleMarks(run, config, r, chunk[..next], key);
    } else {
      assert chunk[..|chunk|] == chunk;
      ChunkMarks(run, p.world, chunk, key);
    }
  }

  lemma {:induction false} DrainMarks(run: Run, config: Config, jobs: seq<Job>, p: Progress, key: Key)
    requires config.minBatchSize >= 1 && p.tally.chunkSize >= 1 && p.tally.cursor <= |jobs|
    requires key in KeySet(jobs[p.tally.cursor..]) || MarkedWith(p.world.events, key, run.id)
    ensures MarkedWith(Drain(run, config, jobs, p).world.events, key, run.id)
    decreases |jobs| - p.tally.cursor
  {
    hide Settle, MarkedWith, KeySet;
    var i := p.tally.cursor;
    if i < |jobs| {
      var chunk := NextChunk(jobs, p.tally);
      var q := Settle(run, config, p, chunk);
      var j := q.tally.cursor;
      assert chunk[..j - i] == jobs[i..j];
      KeysFrom(jobs, i, j);
      if key in KeySet(jobs[i..j]) {
        SettleMarks(run, config, p, chunk, key);
      } else if MarkedWith(p.world.events, key, run.id) {
        SettleKeepsMark(run, config, p, chunk, key);
      }
      DrainMarks(run, config, jobs, q, key);
    } else {
      NoKeys(jobs, key);
    }
  }

  /** A run marks the events of exactly its candidates with its id, new or not, and leaves all
      others as they were. */
  lemma RunMarksItsCandidates(run: Run, config: Config, w: World, listed: seq<Job>, key: Key)
    requires config.minBatchSize >= 1
    ensures var end := RunOver(run, config, w, listed).world.events;
            if key in KeySet(Candidates(w.events, run.maxAttempts, listed, config.limit))
            then key in end && end[key].runId == run.id
            else FindEvent(end, key) == FindEvent(w.events, key)
  {
    hide Drain, Candidates, KeySet;
    var jobs, p := Candidates(w.events, run.maxAttempts, listed, config.limit), Progress(w, StartTally(config));
    assert jobs[0..] == jobs;
    if key in KeySet(jobs) {
      DrainMarks(run, config, jobs, p, key);
    } else {
      DrainLeavesAlone(run, config, jobs, p, key);
    }
  }

  /** With a limit of one or more the candidates are the first jobs that qualify, as many as
      the limit allows. */
  lemma CandidatesAreFirstInLine(events: Events, maxAttempts: int, listed: seq<Job>, limit: int)
    requires limit >= 1
    ensures var jobs, all := Candidates(events, maxAttempts, listed, limit), Qualified(events, maxAttempts, listed);
            jobs <= all && |jobs| == Min(limit, |all|)
  {
    hide Qualified;
  }

  lemma CandidatesQualify(events: Events, maxAttempts: int, listed: seq<Job>, limit: int, job: Job)
    requires job in Candidates(events, maxAttempts, listed, limit)
    ensures IsCandidate(events, maxAttempts, job)
  {
    hide IsCandidate;
    QualifiedIsListed(events, maxAttempts, if limit >= 1 || listed == [] then listed else listed[..1], job);
  }

  /** The last answer to the key leaves nothing to try again. */
  predicate Closed(w: World, maxAttempts: int, key: Key) {
    match LastAnswer(w.log, key)
    case None => false
    case Some(Ok(_)) => true
    case Some(ClientError(code)) => code != 404 || Submitted(w.log, key) >= maxAttempts
    case Some(ServerError(_)) => Submitted(w.log, key) >= maxAttempts
  }

  lemma {:induction false} SubmittedIsPrefix(log: seq<Submission>, more: seq<Submission>, key: Key)
    requires Submitted(log + more, key) == Submitted(log, key)
    ensures LastAnswer(log + more, key) == LastAnswer(log, key)
    decreases |more|
  {
    hide LastAnswer, Submitted;
    if more == [] {
      assert log + more == log;
    } else {
      var front, last := more[..|more| - 1], more[|more| - 1];
      assert log + more == (log + front) + [last];
      AnswerSnoc(log + front, last, key);
      SubmittedGrows(log, log + front, key);
      SubmittedIsPrefix(log, front, key);
    }
  }

  /** Once a payload was taken, refused other than by a 404, or has failed as often as it
      may, no later run submits it. */
  lemma {:induction false} ClosedStaysClosed(client: nat -> Outcome, maxAttempts: int, requests: seq<Request>,
                                             later: seq<Request>, key: Key)
    requires key.hash.OfBackend? && Closed(History(client, maxAttempts, requests), maxAttempts, key)
    ensures var w := History(client, maxAttempts, requests);
            var v := History(client, maxAttempts, requests + later);
            && w.log <= v.log && Submitted(v.log, key) == Submitted(w.log, key)
            && LastAnswer(v.log, key) == LastAnswer(w.log, key)
    decreases |later|
  {
    hide RunOver, Submitted, LastAnswer, Candidates, KeySet, Told;
    if later == [] {
      assert requests + later == requests;
    } else {
      var front, last := later[..|later| - 1], later[|later| - 1];
      var all := requests + later;
      assert all[..|all| - 1] == requests + front;
      ClosedStaysClosed(client, maxAttempts, requests, front, key);
      var w, v := History(client, maxAttempts, requests), History(client, maxAttempts, requests + front);
      if last.config.minBatchSize >= 1 {
        var run := Run(last.id, client, maxAttempts);
        RunSubmitsItsCandidates(run, last.config, v, last.listed, key);
        NoCandidateWhenClosed(client, maxAttempts, requests + front, last.listed, last.config.limit, key);
        RunExtendsLog(run, last.config, v, last.listed);
        var u := RunOver(run, last.config, v, last.listed).world;
        assert u.log == v.log + u.log[|v.log|..];
        SubmittedIsPrefix(v.log, u.log[|v.log|..], key);
      }
    }
  }

  lemma RunExtendsLog(run: Run, config: Config, w: World, listed: seq<Job>)
    requires config.minBatchSize >= 1
    ensures w.log <= RunOver(run, config, w, listed).world.log
  {
    hide Drain, Candidates;
    DrainExtendsLog(run, config, Candidates(w.events, run.maxAttempts, listed, config.limit),
                    Progress(w, StartTally(config)));
  }

  lemma NoCandidateWhenClosed(client: nat -> Outcome, maxAttempts: int, requests: seq<Request>, listed: seq<Job>,
                              limit: int, key: Key)
    requires key.hash.OfBackend? && Closed(History(client, maxAttempts, requests), maxAttempts, key)
    ensures key !in KeySet(Candidates(History(client, maxAttempts, requests).events, maxAttempts, listed, limit))
  {
    hide History, Submitted, LastAnswer, Candidates, IsCandidate;
    var w := History(client, maxAttempts, requests);
    if key in KeySet(Candidates(w.events, maxAttempts, listed, limit)) {
      var job :| job in Candidates(w.events, maxAttempts, listed, limit) && KeyOf(job) == key;
      CandidatesQualify(w.events, maxAttempts, listed, limit, job);
      CandidateUnlessAnswered(client, maxAttempts, requests, job);
      assert false;
    }
  }

  // ---------------------------------------------------------------------
  // How a chunk shrinks
  // ---------------------------------------------------------------------

  /** The size of a chunk after k reductions: half of the last one, rounded up, and never
      below the minimum. */
  function SizeAfter(minimum: nat, size: nat, k: nat): nat {
    if k == 0 then size else Max(minimum, (SizeAfter(minimum, size, k - 1) + 1) / 2)
  }

  /** It is the least size from the minimum on that 2 ** k times covers the chunk. */
  lemma {:induction false} SizeAfterIsLeast(minimum: nat, size: nat, k: nat, h: nat)
    requires k >= 1
    ensures h >= SizeAfter(minimum, size, k) <==> h >= minimum && h * Pow2(k) >= size
  {
    var before := SizeAfter(minimum, size, k - 1);
    assert h >= (before + 1) / 2 <==> 2 * h >= before;
    assert h * Pow2(k) == (2 * h) * Pow2(k - 1);
    if k == 1 {
      assert Pow2(0) == 1;
    } else {
      SizeAfterIsLeast(minimum, size, k - 1, 2 * h);
    }
  }

  lemma {:induction false} SizeAfterHalving(minimum: nat, size: nat, k: nat)
    ensures SizeAfter(minimum, Max(minimum, (size + 1) / 2), k) == SizeAfter(minimum, size, k + 1)
  {
    if k > 0 {
      SizeAfterHalving(minimum, size, k - 1);
    }
  }

  /** The jobs that are left of a chunk after k reductions. */
  function Left(config: Config, chunk: seq<Job>, k: nat): seq<Job>
    requires config.minBatchSize >= 1
  {
    chunk[..Min(SizeAfter(config.minBatchSize, |chunk|, k), |chunk|)]
  }

  /** The n-th call of the client is about these jobs, and its answer sends them back to be
      submitted again, fewer of them. */
  predicate SentBack(run: Run, config: Config, part: seq<Job>, n: nat) {
    && config.adaptive && |part| > config.minBatchSize
    && (exists job :: job in part && job.backend.Some?)
    && WorthRetrying(run.client(n))
  }

  predicate AllTaken(run: Run, part: seq<Job>, n: nat) {
    (forall job | job in part :: job.backend.Some?) && run.client(n).Ok?
  }

  /** From p to q the chunk was submitted, sent back k times and then settled. */
  ghost predicate Settled(run: Run, config: Config, p: Progress, chunk: seq<Job>, q: Progress, k: nat)
    requires config.minBatchSize >= 1
  {
    var n, last := |p.world.log|, Left(config, chunk, k);
    && (forall i | 0 <= i < k :: SentBack(run, config, Left(config, chunk, i), n + i))
    && !SentBack(run, config, last, n + k)
    && q.tally.settled == p.tally.settled + [last]
    && q.tally.cursor == p.tally.cursor + |last|
    && q.tally.chunkSize == (if k == 0 then p.tally.chunkSize else |last|)
    && q.tally.reductions == p.tally.reductions + k
    && q.tally.chunksAttempted == p.tally.chunksAttempted + k + 1
    && q.tally.chunksFailed == p.tally.chunksFailed + k + One(!AllTaken(run, last, n + k))
    && |q.world.log| == n + k + One(exists job :: job in last && job.backend.Some?)
  }

  lemma SomeValid(jobs: seq<Job>)
    ensures ValidKeys(jobs) != [] <==> exists job :: job in jobs && job.backend.Some?
    ensures |ValidKeys(jobs)| == |jobs| <==> forall job | job in jobs :: job.backend.Some?
    ensures |ValidKeys(jobs)| <= |jobs|
  {
    ValidKeysFit(jobs);
    if jobs != [] {
      var front, last := jobs[..|jobs| - 1], jobs[|jobs| - 1];
      assert jobs == front + [last];
      SomeValid(front);
    }
  }

  lemma LeftFirst(config: Config, chunk: seq<Job>)
    requires config.minBatchSize >= 1
    ensures Left(config, chunk, 0) == chunk
  {
  }

  lemma LeftAfterOne(config: Config, chunk: seq<Job>, k: nat)
    requires config.minBatchSize >= 1 && |chunk| > config.minBatchSize
    ensures 1 <= NextSize(config, |chunk|) < |chunk|
    ensures Left(config, chunk[..NextSize(config, |chunk|)], k) == Left(config, chunk, k + 1)
  {
    SizeAfterHalving(config.minBatchSize, |chunk|, k);
    SizeShrinks(config.minBatchSize, NextSize(config, |chunk|), k);
  }

  lemma {:induction false} SizeShrinks(minimum: nat, size: nat, k: nat)
    requires minimum <= size
    ensures minimum <= SizeAfter(minimum, size, k) <= size
  {
    if k > 0 {
      SizeShrinks(minimum, size, k - 1);
    }
  }

  /** The outcome of one attempt, by the backend's answer. */
  lemma AttemptSettles(run: Run, config: Config, p: Progress, chunk: seq<Job>)
    requires config.minBatchSize >= 1 && chunk != []
    ensures |ValidKeys(chunk)| <= |chunk|
    ensures RetrySmaller(config, ResultOf(run, p.world, chunk), |chunk|)
            <==> SentBack(run, config, chunk, |p.world.log|)
    ensures ResultOf(run, p.world, chunk).failed > 0 <==> !AllTaken(run, chunk, |p.world.log|)
    ensures |ChunkWorld(run, p.world, chunk).log|
            == |p.world.log| + One(exists job :: job in chunk && job.backend.Some?)
  {
    SomeValid(chunk);
  }

  lemma SettledAtOnce(run: Run, config: Config, p: Progress, chunk: seq<Job>)
    requires config.minBatchSize >= 1 && chunk != [] && !SentBack(run, config, chunk, |p.world.log|)
    ensures Settled(run, config, p, chunk, Settle(run, config, p, chunk), 0)
  {
    hide SentBack, AllTaken, ChunkWorld, ResultOf, RetrySmaller;
    AttemptSettles(run, config, p, chunk);
    LeftFirst(config, chunk);
  }

  lemma SettledLater(run: Run, config: Config, p: Progress, chunk: seq<Job>, r: Progress, q: Progress, k: nat)
    requires config.minBatchSize >= 1 && SentBack(run, config, chunk, |p.world.log|)
    requires |r.world.log| == |p.world.log| + 1
    requires r.tally.settled == p.tally.settled && r.tally.cursor == p.tally.cursor
    requires r.tally.reductions == p.tally.reductions + 1 && r.tally.chunksAttempted == p.tally.chunksAttempted + 1
    requires r.tally.chunksFailed == p.tally.chunksFailed + 1 && r.tally.chunkSize == NextSize(config, |chunk|)
    requires NextSize(config, |chunk|) <= |chunk|
    requires Settled(run, config, r, chunk[..NextSize(config, |chunk|)], q, k)
    ensures Settled(run, config, p, chunk, q, k + 1)
  {
    hide AllTaken, SizeAfter, NextSize;
    assert |chunk| > config.minBatchSize;
    hide SentBack;
    var rest := chunk[..NextSize(config, |chunk|)];
    LeftAfterOne(config, chunk, k);
    LeftFirst(config, chunk);
    LeftFirst(config, rest);
    hide Left;
    forall i | 0 <= i < k + 1 ensures SentBack(run, config, Left(config, chunk, i), |p.world.log| + i) {
      if i > 0 {
        LeftAfterOne(config, chunk, i - 1);
        assert SentBack(run, config, Left(config, rest, i - 1), |r.world.log| + (i - 1));
      }
    }
  }

  /** A chunk is halved as long as its answers are worth retrying and it is above the
      minimum, and settles with the first answer that is not, or at the minimum. */
  lemma {:induction false} ChunkShrinksWhileSentBack(run: Run, config: Config, p: Progress, chunk: seq<Job>)
    requires config.minBatchSize >= 1 && chunk != []
    ensures var q := Settle(run, config, p, chunk);
            && q.tally.reductions >= p.tally.reductions
            && Settled(run, config, p, chunk, q, q.tally.reductions - p.tally.reductions)
    decreases |chunk|
  {
    hide SentBack, AllTaken, Settled, ChunkWorld, ResultOf, RetrySmaller, NextSize;
    AttemptSettles(run, config, p, chunk);
    var result := ResultOf(run, p.world, chunk);
    var q := Settle(run, config, p, chunk);
    if RetrySmaller(config, result, |chunk|) {
      var next := NextSize(config, |chunk|);
      assert |chunk| > config.minBatchSize && exists job :: job in chunk && job.backend.Some? by {
        SentBackMeans(run, config, chunk, |p.world.log|);
      }
      NextSizeShrinks(config, |chunk|);
      var r := Progress(ChunkWorld(run, p.world, chunk), CountedRetry(p.tally, result, next));
      ChunkShrinksWhileSentBack(run, config, r, chunk[..next]);
      SettledLater(run, config, p, chunk, r, q, q.tally.reductions - r.tally.reductions);
    } else {
      SettledAtOnce(run, config, p, chunk);
      assert q.tally.reductions == p.tally.reductions by { SettledMeans(run, config, p, chunk, q, 0); }
    }
  }

  lemma SentBackMeans(run: Run, config: Config, part: seq<Job>, n: nat)
    requires SentBack(run, config, part, n)
    ensures |part| > config.minBatchSize && exists job :: job in part && job.backend.Some?
  {
  }

  lemma SettledMeans(run: Run, config: Config, p: Progress, chunk: seq<Job>, q: Progress, k: nat)
    requires config.minBatchSize >= 1 && Settled(run, config, p, chunk, q, k)
    ensures q.tally.reductions == p.tally.reductions + k
  {
  }

  // ---------------------------------------------------------------------
  // What the report of a run tells of the answers
  // ---------------------------------------------------------------------

  /** The class of an answer, by its code: every client error counts as a 4xx, and an error
      without a code, or with code zero, as one of the transport. */
  predicate IsAnswerOf(c: StatusClass, answer: Outcome) {
    match c
    case Empty => false
    case Contract => false
    case Transport => answer == ServerError(None) || answer == ServerError(Some(0))
    case Hundreds(digit) =>
      match answer
      case Ok(code) => 100 * digit <= code < 100 * digit + 100
      case ClientError(_) => digit == 4
      case ServerError(status) =>
        status.Some? && status.value != 0 && 100 * digit <= status.value < 100 * digit + 100
  }

  function AnswersOf(log: seq<Submission>, c: StatusClass): nat {
    if log == [] then 0
    else AnswersOf(log[..|log| - 1], c) + One(IsAnswerOf(c, log[|log| - 1].outcome))
  }

  /** The run's classes so far: one per answer, and "contract" for every chunk that was not
      submitted because the contract rejects all its jobs. */
  ghost predicate Classified(start: World, p: Progress) {
    && |start.log| <= |p.world.log|
    && (forall c | c != Contract :: p.tally.classes[c] == AnswersOf(p.world.log, c) - AnswersOf(start.log, c))
    && p.tally.classes[Contract] == p.tally.chunksAttempted - (|p.world.log| - |start.log|)
  }

  lemma OneClass(c: StatusClass, answer: Outcome)
    ensures IsAnswerOf(c, answer) <==> c == ClassOf(answer)
  {
  }

  lemma AnswersSnoc(log: seq<Submission>, s: Submission, c: StatusClass)
    ensures AnswersOf(log + [s], c) == AnswersOf(log, c) + One(c == ClassOf(s.outcome))
  {
    assert (log + [s])[..|log|] == log;
    OneClass(c, s.outcome);
  }

  lemma AttemptClassifies(run: Run, start: World, p: Progress, chunk: seq<Job>, t: Tally)
    requires chunk != [] && |ValidKeys(chunk)| <= |chunk| && Classified(start, p)
    requires t.classes == p.tally.classes + multiset{ResultOf(run, p.world, chunk).statusClass}
    requires t.chunksAttempted == p.tally.chunksAttempted + 1
    ensures Classified(start, Progress(ChunkWorld(run, p.world, chunk), t))
  {
    hide ChunkEvents, ValidKeys, AnswersOf, ClassOf;
    var answer := run.client(|p.world.log|);
    forall c ensures AnswersOf(p.world.log + [Submission(ValidKeys(chunk), answer)], c)
                     == AnswersOf(p.world.log, c) + One(c == ClassOf(answer)) {
      AnswersSnoc(p.world.log, Submission(ValidKeys(chunk), answer), c);
    }
    assert ClassOf(answer) != Contract by { OneClass(Contract, answer); }
  }

  lemma {:induction false} SettleClassifies(run: Run, config: Config, start: World, p: Progress, chunk: seq<Job>)
    requires config.minBatchSize >= 1 && chunk != [] && Classified(start, p)
    ensures Classified(start, Settle(run, config, p, chunk))
    decreases |chunk|
  {
    hide Classified, ChunkWorld, ResultOf;
    ValidKeysFit(chunk);
    var result := ResultOf(run, p.world, chunk);
    if RetrySmaller(config, result, |chunk|) {
      NextSizeShrinks(config, |chunk|);
      var next := NextSize(config, |chunk|);
      var t := CountedRetry(p.tally, result, next);
      AttemptClassifies(run, start, p, chunk, t);
      SettleClassifies(run, config, start, Progress(ChunkWorld(run, p.world, chunk), t), chunk[..next]);
    } else {
      AttemptClassifies(run, start, p, chunk, CountedSettled(p.tally, result, chunk));
    }
  }

  lemma {:induction false} DrainClassifies(run: Run, config: Config, jobs: seq<Job>, start: World, p: Progress)
    requires config.minBatchSize >= 1 && p.tally.chunkSize >= 1 && p.tally.cursor <= |jobs| && Classified(start, p)
    ensures Classified(start, Drain(run, config, jobs, p))
    decreases |jobs| - p.tally.cursor
  {
    hide Settle, Classified;
    if p.tally.cursor < |jobs| {
      var chunk := NextChunk(jobs, p.tally);
      SettleClassifies(run, config, start, p, chunk);
      DrainClassifies(run, config, jobs, start, Settle(run, config, p, chunk));
    }
  }

  /** The report counts every answer under the class of its code, and gives as the reason for
      sending nothing that there was nobody to send to or that nobody was taken. */
  lemma ReportTellsTheAnswers(run: Run, config: Config, w: World, listed: seq<Job>)
    requires config.minBatchSize >= 1 && DistinctJobs(listed)
    ensures var jobs := Candidates(w.events, run.maxAttempts, listed, config.limit);
            var end := RunOver(run, config, w, listed);
            && Classified(w, end)
            && ReportOf(jobs, end.tally).classes == end.tally.classes
            && ReportOf(jobs, end.tally).zeroSentReason
               == if Taken(end.world.log) > Taken(w.log) then None
                  else if jobs == [] then Some(NoEligibleJobs)
                  else Some(AllCandidatesFailed)
  {
    hide Drain, Candidates, DistinctJobs, Classified;
    var jobs := Candidates(w.events, run.maxAttempts, listed, config.limit);
    RunSettlesEveryCandidate(run, config, w, listed);
    assert Classified(w, Progress(w, StartTally(config))) by { NothingClassified(config, w); }
    DrainClassifies(run, config, jobs, w, Progress(w, StartTally(config)));
  }

  lemma NothingClassified(config: Config, w: World)
    ensures Classified(w, Progress(w, StartTally(config)))
  {
  }

  /** All chunks but the last are full. */
  predicate Full(size: nat, total: nat, chunks: seq<seq<Job>>) {
    forall i | 0 <= i < |chunks| :: |chunks[i]| == Min(size, total - i * size)
  }

  /** Nothing is ever sent back. */
  ghost predicate Steady(run: Run, config: Config) {
    !config.adaptive || forall n :: !WorthRetrying(run.client(n))
  }

  lemma SteadyChunkSettles(run: Run, config: Config, p: Progress, chunk: seq<Job>)
    requires config.minBatchSize >= 1 && chunk != [] && Steady(run, config)
    ensures var t := Settle(run, config, p, chunk).tally;
            && t.settled == p.tally.settled + [chunk] && t.cursor == p.tally.cursor + |chunk|
            && t.chunkSize == p.tally.chunkSize
  {
    hide Settle, AllTaken;
    ChunkShrinksWhileSentBack(run, config, p, chunk);
    assert !SentBack(run, config, Left(config, chunk, 0), |p.world.log| + 0);
    LeftFirst(config, chunk);
  }

  lemma FullSnoc(size: nat, total: nat, chunks: seq<seq<Job>>, chunk: seq<Job>)
    requires Full(size, total, chunks) && |chunk| == Min(size, total - |chunks| * size)
    ensures Full(size, total, chunks + [chunk])
  {
  }

  lemma NextCursor(size: nat, total: nat, n: nat, cursor: nat)
    requires cursor == Min(n * size, total) && cursor < total
    ensures cursor + Min(size, total - cursor) == Min((n + 1) * size, total)
    ensures total - cursor == total - n * size
  {
    assert (n + 1) * size == n * size + size;
  }

  lemma {:induction false} SteadyDrainFillsChunks(run: Run, config: Config, jobs: seq<Job>, p: Progress, size: nat)
    requires config.minBatchSize >= 1 && size >= 1 && p.tally.chunkSize == size && Steady(run, config)
    requires p.tally.cursor == Min(|p.tally.settled| * size, |jobs|) && Full(size, |jobs|, p.tally.settled)
    ensures Full(size, |jobs|, Drain(run, config, jobs, p).tally.settled)
    decreases |jobs| - p.tally.cursor
  {
    hide Settle, Full, Steady;
    if p.tally.cursor < |jobs| {
      var chunk := NextChunk(jobs, p.tally);
      SteadyChunkSettles(run, config, p, chunk);
      NextCursor(size, |jobs|, |p.tally.settled|, p.tally.cursor);
      FullSnoc(size, |jobs|, p.tally.settled, chunk);
      SteadyDrainFillsChunks(run, config, jobs, Settle(run, config, p, chunk), size);
    }
  }

  /** A run without adaptive batching, or without an answer worth retrying, cuts its
      candidates into full chunks; the last one takes what is left. */
  lemma SteadyRunFillsChunks(run: Run, config: Config, w: World, listed: seq<Job>)
    requires config.minBatchSize >= 1 && Steady(run, config)
    ensures var jobs := Candidates(w.events, run.maxAttempts, listed, config.limit);
            Full(InitialChunkSize(config), |jobs|, RunOver(run, config, w, listed).tally.settled)
  {
    hide Drain, Candidates, Steady;
    SteadyDrainFillsChunks(run, config, Candidates(w.events, run.maxAttempts, listed, config.limit),
                           Progress(w, StartTally(config)), InitialChunkSize(config));
  }

  /** The first chunk holds the requested batch size, or the limit, cut to 1 and 25. */
  lemma FirstChunkSize(config: Config)
    ensures var wanted := match config.batchSize case Some(n) => (if n == 0 then config.limit else n)
                                                 case None => config.limit;
            InitialChunkSize(config) == if wanted < 1 then 1 else if wanted > 25 then 25 else wanted
  {
  }
}
