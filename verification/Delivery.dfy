/** From the backend sync to the notification handoff: what is handed over for a scrape
    run is what the backend accepted in it. */
module Delivery {
  import opened Wrappers
  import opened SyncEvents
  import opened SyncWorker
  import H = Handoff
  import S = SyncHistory

  // ---------------------------------------------------------------------
  // Which run an event belongs to
  // ---------------------------------------------------------------------

  /** An event that is not as before belongs to the run; a payload that breaks the
      contract is not filed as sent. */
  predicate Files(before: Events, after: Events, key: Key, run: Option<RunId>) {
    match FindEvent(after, key)
    case None => true
    case Some(e) =>
      FindEvent(before, key) == Some(e) || (e.runId == run && (key.hash.OfNormalized? ==> !e.status.Sent?))
  }

  lemma ChunkFiles(run: Run, w: World, chunk: seq<Job>, key: Key)
    ensures Files(w.events, ChunkWorld(run, w, chunk).events, key, run.id)
  {
    hide ChunkEvents, KeySet;
    EventAfterChunk(w.events, chunk, run.id, run.client(|w.log|), run.maxAttempts, key);
  }

  lemma {:induction false} SettleFiles(run: Run, config: Config, p: Progress, chunk: seq<Job>, key: Key)
    requires config.minBatchSize >= 1 && chunk != []
    ensures Files(p.world.events, Settle(run, config, p, chunk).world.events, key, run.id)
    decreases |chunk|
  {
    hide ChunkWorld, ValidKeys, FindEvent;
    ValidKeysFit(chunk);
    var result := ResultOf(run, p.world, chunk);
    ChunkFiles(run, p.world, chunk, key);
    if RetrySmaller(config, result, |chunk|) {
      NextSizeShrinks(config, |chunk|);
      var next := NextSize(config, |chunk|);
      SettleFiles(run, config, Progress(ChunkWorld(run, p.world, chunk), CountedRetry(p.tally, result, next)),
                  chunk[..next], key);
    }
  }

  lemma {:induction false} DrainFiles(run: Run, config: Config, jobs: seq<Job>, p: Progress, key: Key)
    requires config.minBatchSize >= 1 && p.tally.chunkSize >= 1 && p.tally.cursor <= |jobs|
    ensures Files(p.world.events, Drain(run, config, jobs, p).world.events, key, run.id)
    decreases |jobs| - p.tally.cursor
  {
    hide Settle, FindEvent;
    if p.tally.cursor < |jobs| {
      var chunk := NextChunk(jobs, p.tally);
      SettleFiles(run, config, p, chunk, key);
      DrainFiles(run, config, jobs, Settle(run, config, p, chunk), key);
    }
  }

  /** Over any sequence of runs an event belongs to one of them, and only backend payloads
      are ever sent. */
  lemma {:induction false} EventsBelongToRuns(client: nat -> Outcome, maxAttempts: int, requests: seq<S.Request>,
                                              key: Key)
    ensures match FindEvent(S.History(client, maxAttempts, requests).events, key)
            case None => true
            case Some(e) =>
              && (exists r | r in requests :: r.id == e.runId)
              && (key.hash.OfNormalized? ==> !e.status.Sent?)
  {
    if requests != [] {
      hide Drain, Candidates, FindEvent;
      var front, last := requests[..|requests| - 1], requests[|requests| - 1];
      assert last in requests && forall r | r in front :: r in requests;
      EventsBelongToRuns(client, maxAttempts, front, key);
      var w := S.History(client, maxAttempts, front);
      if last.config.minBatchSize >= 1 {
        var run := Run(last.id, client, maxAttempts);
        var jobs := Candidates(w.events, maxAttempts, last.listed, last.config.limit);
        DrainFiles(run, last.config, jobs, Progress(w, StartTally(last.config)), key);
      }
    } else {
      assert FindEvent(map[], key) == None;
    }
  }

  // ---------------------------------------------------------------------
  // What a run hands over
  // ---------------------------------------------------------------------

  /** The event is listed for handing over the run. */
  predicate IsSynced(events: Events, id: RunId, key: Key) {
    key in events && events[key].status.Sent? && events[key].runId == Some(id)
  }

  /** The listed rows: all synced events of the run, each once. */
  ghost predicate Lists(events: Events, id: RunId, keys: seq<Key>) {
    && (forall key: Key :: key in keys <==> IsSynced(events, id, key))
    && (forall i, j | 0 <= i < j < |keys| :: keys[i] != keys[j])
  }

  /** How a stored job is presented: its unique identity, and the candidate made from it. */
  datatype Presented = Presented(platform: string, externalId: string)

  ghost predicate IdentitiesAreUnique(identity: JobId -> Presented) {
    forall a, b | identity(a) == identity(b) :: a == b
  }

  function Offer(identity: JobId -> Presented, payload: Key -> int, key: Key): H.Synced {
    H.Synced(identity(key.job).platform, identity(key.job).externalId, payload(key))
  }

  function Offers(identity: JobId -> Presented, payload: Key -> int, keys: seq<Key>): seq<H.Synced> {
    seq(|keys|, i requires 0 <= i < |keys| => Offer(identity, payload, keys[i]))
  }

  lemma {:induction false} KeyAt(id: RunId, listed: seq<H.Synced>, i: nat)
    requires i < |listed|
    ensures |H.KeysOf(id, listed)| == |listed| && H.KeysOf(id, listed)[i] == H.KeyOf(id, listed[i])
    decreases |listed|
  {
    var front := listed[..|listed| - 1];
    if front != [] {
      KeyAt(id, front, if i < |front| then i else 0);
    }
  }

  lemma {:induction false} AsManyKeys(id: RunId, listed: seq<H.Synced>)
    ensures |H.KeysOf(id, listed)| == |listed|
  {
    if listed != [] {
      KeyAt(id, listed, 0);
    }
  }

  // ---------------------------------------------------------------------
  // When no identity is handed over twice
  // ---------------------------------------------------------------------

  /** No job has two events that are listed for handing over the run. */
  ghost predicate OncePerJob(events: Events, id: RunId) {
    forall a: Key, b: Key | IsSynced(events, id, a) && IsSynced(events, id, b) && a.job == b.job :: a == b
  }

  /** The listing has distinct identities exactly when no job is in it twice. */
  lemma DistinctExactlyOncePerJob(events: Events, id: RunId, keys: seq<Key>, identity: JobId -> Presented,
                                  payload: Key -> int)
    requires Lists(events, id, keys) && IdentitiesAreUnique(identity)
    ensures H.DistinctIdentities(id, Offers(identity, payload, keys)) <==> OncePerJob(events, id)
  {
    hide H.KeysOf, IsSynced;
    var offers := Offers(identity, payload, keys);
    var listed := H.KeysOf(id, offers);
    AsManyKeys(id, offers);
    forall i | 0 <= i < |keys| ensures listed[i] == H.KeyOf(id, offers[i]) {
      KeyAt(id, offers, i);
    }
    if OncePerJob(events, id) {
      forall i, j | 0 <= i < j < |listed| ensures listed[i] != listed[j] {
        assert keys[i] in keys && keys[j] in keys;
        assert keys[i].job != keys[j].job;
        assert identity(keys[i].job) != identity(keys[j].job);
      }
    }
    if H.Distinct(listed) {
      forall a: Key, b: Key | IsSynced(events, id, a) && IsSynced(events, id, b) && a.job == b.job ensures a == b {
        assert a in keys && b in keys;
        var i :| 0 <= i < |keys| && keys[i] == a;
        var j :| 0 <= j < |keys| && keys[j] == b;
        assert listed[i] == listed[j];
      }
    }
  }

  /** Nothing is listed for handing over the run yet. */
  ghost predicate NothingSynced(events: Events, id: RunId) {
    forall key: Key :: !IsSynced(events, id, key)
  }

  /** A run leaves the events alone that it does not submit. */
  lemma OnlySubmittedChange(run: Run, config: Config, w: World, listed: seq<Job>, key: Key)
    requires config.minBatchSize >= 1
    requires key !in KeySet(Candidates(w.events, run.maxAttempts, listed, config.limit))
    ensures FindEvent(S.RunOver(run, config, w, listed).world.events, key) == FindEvent(w.events, key)
  {
    hide Drain, Candidates, FindEvent;
    S.DrainLeavesAlone(run, config, Candidates(w.events, run.maxAttempts, listed, config.limit),
                       Progress(w, StartTally(config)), key);
  }

  lemma RunSyncsOncePerJob(run: Run, config: Config, w: World, listed: seq<Job>, id: RunId)
    requires config.minBatchSize >= 1 && DistinctJobs(listed) && NothingSynced(w.events, id)
    ensures OncePerJob(S.RunOver(run, config, w, listed).world.events, id)
  {
    hide S.RunOver, Candidates, KeySet, DistinctJobs;
    var jobs := Candidates(w.events, run.maxAttempts, listed, config.limit);
    var end := S.RunOver(run, config, w, listed).world.events;
    CandidatesDistinct(w.events, run.maxAttempts, listed, config.limit);
    forall a: Key, b: Key | IsSynced(end, id, a) && IsSynced(end, id, b) && a.job == b.job ensures a == b {
      assert !IsSynced(w.events, id, a) && !IsSynced(w.events, id, b);
      if a !in KeySet(jobs) {
        OnlySubmittedChange(run, config, w, listed, a);
      } else if b !in KeySet(jobs) {
        OnlySubmittedChange(run, config, w, listed, b);
      } else {
        KeysOfDistinctJobs(jobs, a, b);
      }
    }
  }

  lemma KeysOfDistinctJobs(jobs: seq<Job>, a: Key, b: Key)
    requires DistinctJobs(jobs) && a in KeySet(jobs) && b in KeySet(jobs) && a.job == b.job
    ensures a == b
  {
    var x :| x in jobs && KeyOf(x) == a;
    var y :| y in jobs && KeyOf(y) == b;
    var i :| 0 <= i < |jobs| && jobs[i] == x;
    var j :| 0 <= j < |jobs| && jobs[j] == y;
  }

  const ONE_BY_ONE := Config(1, None, 1, true)

  function Takes(n: nat): Outcome { Ok(200) }

  /** A willing backend and one new job: its event is sent, all others stay. */
  lemma OneJobIsSent(run: Run, w: World, job: Job, key: Key)
    requires (forall n :: run.client(n) == Takes(n)) && job.backend.Some? && KeyOf(job) !in w.events
    ensures FindEvent(S.RunOver(run, ONE_BY_ONE, w, [job]).world.events, key)
            == if key == KeyOf(job) then Some(SyncEvent(Sent, 1, run.id)) else FindEvent(w.events, key)
  {
    hide ChunkEvents, S.RunOver;
    S.OneJobRuns(run, ONE_BY_ONE, w, job);
    assert run.client(|w.log|) == Takes(|w.log|);
    EventAfterChunk(w.events, [job], run.id, Takes(|w.log|), run.maxAttempts, key);
    assert key in KeySet([job]) <==> key == KeyOf(job);
  }

  lemma {:induction false} Above(digests: set<int>) returns (d: int)
    ensures forall x | x in digests :: x < d
    decreases digests
  {
    if x :| x in digests {
      var rest := Above(digests - {x});
      d := if x < rest then rest else x + 1;
      assert forall y | y in digests :: y == x || y in digests - {x};
    } else {
      d := 0;
    }
  }

  lemma UnusedDigest(events: Events, job: JobId) returns (d: int)
    ensures Key(job, OfBackend(d)) !in events
  {
    var used := set key | key in events && key.hash.OfBackend? :: key.hash.digest;
    d := Above(used);
    forall key | key in events && key.hash.OfBackend? ensures key.hash.digest < d {
      assert key.hash.digest in used;
    }
  }

  /** Whatever the next run under the id lists, meets and is set to, it leaves each job
      listed at most once for handing over. */
  ghost predicate NextRunIsClean(w: World, id: RunId) {
    forall client: nat -> Outcome, maxAttempts: int, config: Config, listed: seq<Job>
      | config.minBatchSize >= 1 && DistinctJobs(listed) ::
      OncePerJob(S.RunOver(Run(Some(id), client, maxAttempts), config, w, listed).world.events, id)
  }

  /** A job that is synced under the id and listed again with a new payload is listed twice. */
  lemma SyncedAgain(w: World, id: RunId, key: Key)
    requires IsSynced(w.events, id, key)
    ensures !NextRunIsClean(w, id)
  {
    hide S.RunOver;
    var digest := UnusedDigest(w.events, key.job);
    var job := Job(key.job, 0, Some(digest));
    var run := Run(Some(id), Takes, 1);
    OneJobIsSent(run, w, job, key);
    OneJobIsSent(run, w, job, KeyOf(job));
    var end := S.RunOver(run, ONE_BY_ONE, w, [job]).world.events;
    assert IsSynced(end, id, key) && IsSynced(end, id, KeyOf(job));
    assert DistinctJobs([job]);
    assert !OncePerJob(end, id);
  }

  /** The exact condition for using a run id: the next run under it lists no identity twice,
      whatever happens in it, if and only if nothing is listed for the id yet. */
  lemma CleanExactlyWhenNothingSynced(w: World, id: RunId)
    ensures NextRunIsClean(w, id) <==> NothingSynced(w.events, id)
  {
    hide S.RunOver, OncePerJob, IsSynced;
    if NothingSynced(w.events, id) {
      forall client: nat -> Outcome, maxAttempts: int, config: Config, listed: seq<Job>
        | config.minBatchSize >= 1 && DistinctJobs(listed)
        ensures OncePerJob(S.RunOver(Run(Some(id), client, maxAttempts), config, w, listed).world.events, id)
      {
        RunSyncsOncePerJob(Run(Some(id), client, maxAttempts), config, w, listed, id);
      }
    } else {
      var key: Key :| IsSynced(w.events, id, key);
      SyncedAgain(w, id, key);
    }
  }

  // ---------------------------------------------------------------------
  // From the first run under an id to its handoffs
  // ---------------------------------------------------------------------

  /** A sync run under an id for which nothing is listed yet, then any runs under others. */
  ghost predicate SyncedUnder(client: nat -> Outcome, maxAttempts: int, id: RunId, earlier: seq<S.Request>,
                              run: S.Request, later: seq<S.Request>, cap: nat) {
    && S.Acceptable(earlier + [run] + later, cap)
    && run.id == Some(id) && run.config.minBatchSize >= 1
    && NothingSynced(S.History(client, maxAttempts, earlier).events, id)
    && forall r | r in later :: r.id != Some(id)
  }

  /** A run under another id adds nothing to what is listed. */
  lemma OtherRunsSyncNothing(run: Run, config: Config, w: World, listed: seq<Job>, id: RunId, key: Key)
    requires config.minBatchSize >= 1 && run.id != Some(id)
    requires IsSynced(S.RunOver(run, config, w, listed).world.events, id, key)
    ensures IsSynced(w.events, id, key)
  {
    hide Drain, Candidates;
    DrainFiles(run, config, Candidates(w.events, run.maxAttempts, listed, config.limit),
               Progress(w, StartTally(config)), key);
  }

  lemma {:induction false} StaysOncePerJob(client: nat -> Outcome, maxAttempts: int, before: seq<S.Request>,
                                           later: seq<S.Request>, id: RunId)
    requires OncePerJob(S.History(client, maxAttempts, before).events, id)
    requires forall r | r in later :: r.id != Some(id)
    ensures OncePerJob(S.History(client, maxAttempts, before + later).events, id)
    decreases |later|
  {
    hide S.RunOver, IsSynced;
    if later == [] {
      assert before + later == before;
    } else {
      var front, last := later[..|later| - 1], later[|later| - 1];
      assert last in later && forall r | r in front :: r in later;
      StaysOncePerJob(client, maxAttempts, before, front, id);
      assert (before + later)[..|before + later| - 1] == before + front;
      var w := S.History(client, maxAttempts, before + front);
      if last.config.minBatchSize >= 1 {
        forall key: Key
          | IsSynced(S.RunOver(Run(last.id, client, maxAttempts), last.config, w, last.listed).world.events, id, key)
          ensures IsSynced(w.events, id, key)
        {
          OtherRunsSyncNothing(Run(last.id, client, maxAttempts), last.config, w, last.listed, id, key);
        }
      }
    }
  }

  lemma ListedOncePerJob(client: nat -> Outcome, maxAttempts: int, id: RunId, earlier: seq<S.Request>,
                         run: S.Request, later: seq<S.Request>, cap: nat)
    requires SyncedUnder(client, maxAttempts, id, earlier, run, later, cap)
    ensures OncePerJob(S.History(client, maxAttempts, earlier + [run] + later).events, id)
  {
    hide OncePerJob, NothingSynced, DistinctJobs, S.RunOver;
    assert run in earlier + [run] + later;
    S.HistorySnoc(client, maxAttempts, earlier, run);
    RunSyncsOncePerJob(Run(Some(id), client, maxAttempts), run.config, S.History(client, maxAttempts, earlier),
                       run.listed, id);
    StaysOncePerJob(client, maxAttempts, earlier + [run], later, id);
  }

  /** After such runs the backend has accepted each payload that is listed for handing the
      run over exactly once, and no job identity is listed twice. */
  lemma HandedOverWasAcceptedOnce(client: nat -> Outcome, maxAttempts: int, id: RunId, earlier: seq<S.Request>,
                                  run: S.Request, later: seq<S.Request>, cap: nat, keys: seq<Key>,
                                  identity: JobId -> Presented, payload: Key -> int)
    requires SyncedUnder(client, maxAttempts, id, earlier, run, later, cap) && IdentitiesAreUnique(identity)
    requires Lists(S.History(client, maxAttempts, earlier + [run] + later).events, id, keys)
    ensures H.DistinctIdentities(id, Offers(identity, payload, keys))
    ensures forall key | key in keys ::
              S.AcceptedTimes(S.History(client, maxAttempts, earlier + [run] + later).log, key) == 1
  {
    hide S.History, S.Acceptable, H.DistinctIdentities, S.AcceptedTimes, NothingSynced, OncePerJob;
    var all := earlier + [run] + later;
    forall key | key in keys ensures S.AcceptedTimes(S.History(client, maxAttempts, all).log, key) == 1 {
      EventsBelongToRuns(client, maxAttempts, all, key);
      S.AcceptedAtMostOnce(client, maxAttempts, all, cap, key);
    }
    ListedOncePerJob(client, maxAttempts, id, earlier, run, later, cap);
    DistinctExactlyOncePerJob(S.History(client, maxAttempts, all).events, id, keys, identity, payload);
  }

  /** A handoff of the run at some later time: it offers what is listed then. */
  ghost predicate OffersWhatIsListed(client: nat -> Outcome, maxAttempts: int, id: RunId, earlier: seq<S.Request>,
                                     run: S.Request, cap: nat, identity: JobId -> Presented, h: H.Request,
                                     later: seq<S.Request>, keys: seq<Key>, payload: Key -> int)
  {
    && SyncedUnder(client, maxAttempts, id, earlier, run, later, cap)
    && Lists(S.History(client, maxAttempts, earlier + [run] + later).events, id, keys)
    && h == H.Request(id, h.batchSize, Offers(identity, payload, keys))
  }

  ghost predicate HandsOver(client: nat -> Outcome, maxAttempts: int, id: RunId, earlier: seq<S.Request>,
                            run: S.Request, cap: nat, identity: JobId -> Presented, h: H.Request) {
    exists later: seq<S.Request>, keys: seq<Key>, payload: Key -> int ::
      OffersWhatIsListed(client, maxAttempts, id, earlier, run, cap, identity, h, later, keys, payload)
  }

  /** Handing that run over any number of times, with sync runs under other ids between the
      handoffs, in batches of any size, offers each of its jobs to the notification service
      at most as often as allowed, and has it accepted at most once. */
  lemma SyncedJobsAreNotifiedOnce(client: nat -> Outcome, maxAttempts: int, id: RunId, earlier: seq<S.Request>,
                                  run: S.Request, cap: nat, identity: JobId -> Presented,
                                  service: nat -> bool, limit: int, handoffs: seq<H.Request>, key: H.Key)
    requires IdentitiesAreUnique(identity)
    requires forall h | h in handoffs :: HandsOver(client, maxAttempts, id, earlier, run, cap, identity, h)
    ensures H.Delivered(H.History(service, limit, handoffs).log, key) <= H.Allowed(limit)
    ensures H.AcceptedTimes(H.History(service, limit, handoffs).log, key) <= 1
  {
    hide S.History, S.Acceptable, H.DistinctIdentities, H.History, H.Honest, H.Delivered, H.AcceptedTimes, Lists,
         SyncedUnder, IdentitiesAreUnique, Offers;
    forall h | h in handoffs ensures H.DistinctIdentities(h.run, h.listed) {
      var later: seq<S.Request>, keys: seq<Key>, payload: Key -> int :|
        OffersWhatIsListed(client, maxAttempts, id, earlier, run, cap, identity, h, later, keys, payload);
      HandedOverWasAcceptedOnce(client, maxAttempts, id, earlier, run, later, cap, keys, identity, payload);
    }
    H.CandidatesAreDeliveredWithinLimits(service, limit, handoffs, key);
  }

  // ---------------------------------------------------------------------
  // An id that is used twice
  // ---------------------------------------------------------------------

  /** When a run id is used a second time and the job's payload has changed in between, both
      of its events are listed for that run: the same identity is handed over twice. */
  lemma ReusedIdHandsOverTwice(client: nat -> Outcome, maxAttempts: int, id: RunId, identity: JobId -> Presented,
                               payload: Key -> int)
    requires forall n :: client(n) == Takes(n)
    ensures var a, b := Job(1, 0, Some(0)), Job(1, 0, Some(1));
            var requests := [S.Request(Some(id), ONE_BY_ONE, [a]), S.Request(Some(id), ONE_BY_ONE, [b])];
            var keys := [KeyOf(a), KeyOf(b)];
            && Lists(S.History(client, maxAttempts, requests).events, id, keys)
            && !H.DistinctIdentities(id, Offers(identity, payload, keys))
  {
    hide S.RunOver;
    var a, b := Job(1, 0, Some(0)), Job(1, 0, Some(1));
    var first, second := S.Request(Some(id), ONE_BY_ONE, [a]), S.Request(Some(id), ONE_BY_ONE, [b]);
    var run := Run(Some(id), client, maxAttempts);
    var keys := [KeyOf(a), KeyOf(b)];
    assert [first, second][..1] == [first] && [first][..0] == [];
    var w := S.History(client, maxAttempts, [first]);
    var end := S.History(client, maxAttempts, [first, second]);
    assert S.History(client, maxAttempts, []) == S.NOTHING;
    assert w == S.RunOver(run, ONE_BY_ONE, S.NOTHING, [a]).world;
    assert end == S.RunOver(run, ONE_BY_ONE, w, [b]).world by {
      OneJobIsSent(run, S.NOTHING, a, KeyOf(b));
    }
    OneJobIsSent(run, S.NOTHING, a, KeyOf(b));
    forall key: Key ensures key in keys <==> IsSynced(end.events, id, key) {
      OneJobIsSent(run, S.NOTHING, a, key);
      OneJobIsSent(run, w, b, key);
    }
    var offers := Offers(identity, payload, keys);
    AsManyKeys(id, offers);
    KeyAt(id, offers, 0);
    KeyAt(id, offers, 1);
  }
}
