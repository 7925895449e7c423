/** What the deliveries of a candidate tell about its event and about the next run
    (src/modules/notifications/handoff.py), over any number of runs and any service. */
module HandoffHistory {
  import opened Handoff

  // ---------------------------------------------------------------------
  // An event is told by the deliveries of its candidate
  // ---------------------------------------------------------------------

  function StatusBehind(deliveries: nat, accepted: nat, maxAttempts: int): Status {
    if accepted > 0 then Sent
    else if deliveries == 0 then Pending
    else if deliveries < maxAttempts then Failed
    else DeadLetter
  }

  predicate Told(w: World, maxAttempts: int, key: Key) {
    var deliveries, accepted := Delivered(w.log, key), AcceptedTimes(w.log, key);
    if key in w.events then
      && w.events[key].attemptCount == deliveries
      && w.events[key].status == StatusBehind(deliveries, accepted, maxAttempts)
    else deliveries == 0 && accepted == 0
  }

  /** Never accepted, and not delivered as often as it may be. */
  predicate Outstanding(w: World, maxAttempts: int, key: Key) {
    AcceptedTimes(w.log, key) == 0 && Delivered(w.log, key) < Allowed(maxAttempts)
  }

  function One(b: bool): nat { if b then 1 else 0 }

  lemma {:induction false} RetryableExactly(events: Events, keys: seq<Key>, maxAttempts: int, key: Key)
    ensures key in Retryable(events, keys, maxAttempts)
            <==> key in keys && key in events && IsRetryable(events[key], maxAttempts)
  {
    hide IsRetryable;
    if keys != [] {
      var front, last := keys[..|keys| - 1], keys[|keys| - 1];
      assert keys == front + [last];
      RetryableExactly(events, front, maxAttempts, key);
    }
  }

  /** A run over distinct identities delivers a listed candidate that is outstanding, once,
      and nothing else. */
  lemma RunDelivers(job: Job, w: World, listed: seq<Synced>, key: Key)
    requires job.batchSize >= 1 && DistinctIdentities(job.run, listed) && Told(w, job.maxAttempts, key)
    ensures var v := HandOver(job, w, listed).0;
            && Told(v, job.maxAttempts, key)
            && Delivered(v.log, key) == Delivered(w.log, key)
                 + One(key in KeysOf(job.run, listed) && Outstanding(w, job.maxAttempts, key))
  {
    hide PrepareEach, KeysOf, Retryable, Deliver, Delivered, AcceptedTimes, Distinct;
    var prepared, ready := World(PrepareEach(w.events, job.run, listed), w.log), Ready(job, w, listed);
    PrepareEachAt(w.events, job.run, listed, key);
    RetryableAt(prepared.events, KeysOf(job.run, listed), job.maxAttempts);
    RetryableExactly(prepared.events, KeysOf(job.run, listed), job.maxAttempts, key);
    DeliverDeliversOnce(job, prepared, NONE, ready, key);
  }

  /** After any runs over distinct identities the event of a candidate is told by its
      deliveries: sent once one was accepted, pending before the first, and between them open
      for another attempt as long as the limit is not reached. */
  lemma {:induction false} DeliveriesTellTheEvent(client: nat -> bool, maxAttempts: int, requests: seq<Request>,
                                                  key: Key)
    requires Acceptable(requests)
    ensures Told(History(client, maxAttempts, requests), maxAttempts, key)
  {
    if requests != [] {
      hide HandOver, DistinctIdentities, Told;
      var front, last := requests[..|requests| - 1], requests[|requests| - 1];
      assert last in requests && forall r | r in front :: r in requests;
      DeliveriesTellTheEvent(client, maxAttempts, front, key);
      if last.batchSize >= 1 {
        RunDelivers(Job(last.run, maxAttempts, last.batchSize, client), History(client, maxAttempts, front),
                    last.listed, key);
      }
    }
  }

  lemma HistorySnoc(client: nat -> bool, maxAttempts: int, requests: seq<Request>, next: Request)
    requires next.batchSize >= 1
    ensures History(client, maxAttempts, requests + [next])
            == HandOver(Job(next.run, maxAttempts, next.batchSize, client), History(client, maxAttempts, requests),
                        next.listed).0
  {
    hide HandOver;
    assert (requests + [next])[..|requests|] == requests;
  }

  /** The next run delivers a candidate exactly when it lists it, and the candidate was never
      accepted and has been delivered less often than is allowed. */
  lemma NextRunDeliversTheOutstanding(client: nat -> bool, maxAttempts: int, requests: seq<Request>, next: Request,
                                      key: Key)
    requires Acceptable(requests) && DistinctIdentities(next.run, next.listed) && next.batchSize >= 1
    ensures var w, v := History(client, maxAttempts, requests), History(client, maxAttempts, requests + [next]);
            Delivered(v.log, key) == Delivered(w.log, key)
              + One(key in KeysOf(next.run, next.listed)
                    && AcceptedTimes(w.log, key) == 0 && Delivered(w.log, key) < Allowed(maxAttempts))
  {
    hide History, HandOver, Delivered, AcceptedTimes, DistinctIdentities, Told, KeysOf;
    DeliveriesTellTheEvent(client, maxAttempts, requests, key);
    HistorySnoc(client, maxAttempts, requests, next);
    RunDelivers(Job(next.run, maxAttempts, next.batchSize, client), History(client, maxAttempts, requests),
                next.listed, key);
  }

  // ---------------------------------------------------------------------
  // A service that always fails
  // ---------------------------------------------------------------------

  /** In how many of the runs the candidate is listed. */
  function TimesListed(requests: seq<Request>, key: Key): nat {
    if requests == [] then 0
    else
      var last := requests[|requests| - 1];
      TimesListed(requests[..|requests| - 1], key)
      + One(last.batchSize >= 1 && key in KeysOf(last.run, last.listed))
  }

  lemma {:induction false} NoneAccepted(job: Job, w: World, t: Tally, keys: seq<Key>, key: Key)
    requires job.batchSize >= 1 && forall n :: !job.client(n)
    ensures AcceptedTimes(Deliver(job, w, t, keys).0.log, key) == AcceptedTimes(w.log, key)
    decreases |keys|
  {
    if keys != [] {
      hide AcceptedTimes, Occurrences, RecordEach;
      var n := if |keys| <= job.batchSize then |keys| else job.batchSize;
      LogGrows(w.log, Delivery(keys[..n], job.client(|w.log|)), key);
      NoneAccepted(job, DeliverChunk(job, w, keys[..n]), Counted(t, keys[..n], job.client(|w.log|)), keys[n..], key);
    }
  }

  /** While the service always fails, a candidate is delivered once for each run that lists
      it, until its attempts are used up. */
  lemma {:induction false} FailingServiceUsesUpAttempts(client: nat -> bool, maxAttempts: int, requests: seq<Request>,
                                                        key: Key)
    requires Acceptable(requests) && forall n :: !client(n)
    ensures var w := History(client, maxAttempts, requests);
            && AcceptedTimes(w.log, key) == 0
            && Delivered(w.log, key)
               == if TimesListed(requests, key) <= Allowed(maxAttempts) then TimesListed(requests, key)
                  else Allowed(maxAttempts)
  {
    hide HandOver, Delivered, AcceptedTimes, DistinctIdentities, KeysOf, Deliver, PrepareEach, Ready;
    if requests == [] {
      NothingDelivered(key);
    } else {
      var front, last := requests[..|requests| - 1], requests[|requests| - 1];
      assert requests == front + [last];
      assert last in requests && forall r | r in front :: r in requests;
      FailingServiceUsesUpAttempts(client, maxAttempts, front, key);
      if last.batchSize >= 1 {
        NextRunDeliversTheOutstanding(client, maxAttempts, front, last, key);
        FailingRunAccepts(Job(last.run, maxAttempts, last.batchSize, client), History(client, maxAttempts, front),
                          last.listed, key);
      }
    }
  }

  lemma FailingRunAccepts(job: Job, w: World, listed: seq<Synced>, key: Key)
    requires job.batchSize >= 1 && forall n :: !job.client(n)
    ensures AcceptedTimes(HandOver(job, w, listed).0.log, key) == AcceptedTimes(w.log, key)
  {
    hide Deliver, PrepareEach, Ready, AcceptedTimes;
    NoneAccepted(job, World(PrepareEach(w.events, job.run, listed), w.log), NONE, Ready(job, w, listed), key);
  }

  lemma NothingDelivered(key: Key)
    ensures Delivered([], key) == 0 && AcceptedTimes([], key) == 0
  {
  }

  // ---------------------------------------------------------------------
  // The report and the payloads
  // ---------------------------------------------------------------------

  /** How many candidates the service has taken. */
  function Taken(log: seq<Delivery>): nat {
    if log == [] then 0
    else Taken(log[..|log| - 1]) + if log[|log| - 1].ok then |log[|log| - 1].keys| else 0
  }

  function Refusals(log: seq<Delivery>): nat {
    if log == [] then 0 else Refusals(log[..|log| - 1]) + One(!log[|log| - 1].ok)
  }

  lemma TakenSnoc(log: seq<Delivery>, d: Delivery)
    ensures Taken(log + [d]) == Taken(log) + (if d.ok then |d.keys| else 0)
    ensures Refusals(log + [d]) == Refusals(log) + One(!d.ok)
  {
    assert (log + [d])[..|log|] == log;
  }

  lemma {:induction false} TallyCountsAnswers(job: Job, w: World, t: Tally, keys: seq<Key>)
    requires job.batchSize >= 1
    ensures var (end, u) := Deliver(job, w, t, keys);
            && u.sent - t.sent == Taken(end.log) - Taken(w.log)
            && u.chunksFailed - t.chunksFailed == Refusals(end.log) - Refusals(w.log)
            && u.chunksAttempted - t.chunksAttempted == |end.log| - |w.log|
    decreases |keys|
  {
    if keys != [] {
      hide RecordEach, Taken, Refusals;
      var n := if |keys| <= job.batchSize then |keys| else job.batchSize;
      var ok := job.client(|w.log|);
      TakenSnoc(w.log, Delivery(keys[..n], ok));
      TallyCountsAnswers(job, DeliverChunk(job, w, keys[..n]), Counted(t, keys[..n], ok), keys[n..]);
    }
  }

  /** The report counts as sent what the service took in this run, as failed chunks the calls
      that it refused, and every call as a chunk. */
  lemma ReportCountsAnswers(job: Job, w: World, listed: seq<Synced>)
    requires job.batchSize >= 1
    ensures var (end, report) := HandOver(job, w, listed);
            && report.tally.sent == Taken(end.log) - Taken(w.log)
            && report.tally.chunksFailed == Refusals(end.log) - Refusals(w.log)
            && report.tally.chunksAttempted == |end.log| - |w.log|
  {
    hide PrepareEach, Ready, Deliver;
    TallyCountsAnswers(job, World(PrepareEach(w.events, job.run, listed), w.log), NONE, Ready(job, w, listed));
  }

  lemma {:induction false} FullButTheLast(job: Job, w: World, t: Tally, keys: seq<Key>)
    requires job.batchSize >= 1
    ensures var u := Deliver(job, w, t, keys).1;
            && t.chunks <= u.chunks && (t.chunks == u.chunks <==> keys == [])
            && (forall i | |t.chunks| <= i < |u.chunks| - 1 :: |u.chunks[i]| == job.batchSize)
    decreases |keys|
  {
    hide DeliverChunk;
    if keys != [] {
      var n := if |keys| <= job.batchSize then |keys| else job.batchSize;
      FullButTheLast(job, DeliverChunk(job, w, keys[..n]), Counted(t, keys[..n], job.client(|w.log|)), keys[n..]);
    }
  }

  /** Only the last chunk of a run may be smaller than the batch size. */
  lemma ChunksAreFull(job: Job, w: World, listed: seq<Synced>)
    requires job.batchSize >= 1
    ensures var chunks := HandOver(job, w, listed).1.tally.chunks;
            forall i | 0 <= i < |chunks| - 1 :: |chunks[i]| == job.batchSize
  {
    hide PrepareEach, Ready, Deliver;
    FullButTheLast(job, World(PrepareEach(w.events, job.run, listed), w.log), NONE, Ready(job, w, listed));
  }

  lemma {:induction false} PreparedPayloads(events: Events, run: RunId, listed: seq<Synced>, i: nat)
    requires DistinctIdentities(run, listed) && i < |listed|
    ensures var after := PrepareEach(events, run, listed);
            KeyOf(run, listed[i]) in after && after[KeyOf(run, listed[i])].payload == listed[i].payload
    ensures KeyOf(run, listed[i]) in KeysOf(run, listed)
    decreases |listed|
  {
    var front, last := listed[..|listed| - 1], listed[|listed| - 1];
    DistinctSnoc(KeysOf(run, front), KeyOf(run, last));
    if i < |front| {
      PreparedPayloads(events, run, front, i);
    }
  }

  lemma {:induction false} UnlistedUnprepared(events: Events, run: RunId, listed: seq<Synced>, key: Key)
    requires key !in KeysOf(run, listed)
    ensures var after := PrepareEach(events, run, listed);
            (key in after <==> key in events) && (key in events ==> after[key] == events[key])
  {
    if listed != [] {
      UnlistedUnprepared(events, run, listed[..|listed| - 1], key);
    }
  }

  /** Behind a run the event of each listed job holds the payload it is listed with, whether
      it was delivered or not. */
  lemma {:induction false} RunRefreshesPayloads(job: Job, w: World, listed: seq<Synced>, i: nat)
    requires job.batchSize >= 1 && DistinctIdentities(job.run, listed) && i < |listed|
    ensures var v, key := HandOver(job, w, listed).0, KeyOf(job.run, listed[i]);
            key in v.events && v.events[key].payload == listed[i].payload
  {
    hide PrepareEach, KeysOf, Retryable, Deliver, Delivered, AcceptedTimes, Distinct;
    var prepared, ready := World(PrepareEach(w.events, job.run, listed), w.log), Ready(job, w, listed);
    PreparedPayloads(w.events, job.run, listed, i);
    RetryableAt(prepared.events, KeysOf(job.run, listed), job.maxAttempts);
    DeliverDeliversOnce(job, prepared, NONE, ready, KeyOf(job.run, listed[i]));
  }

  /** And every event of another identity or another run is as it was. */
  lemma {:induction false} RunLeavesOthersAlone(job: Job, w: World, listed: seq<Synced>, other: Key)
    requires job.batchSize >= 1 && DistinctIdentities(job.run, listed) && other !in KeysOf(job.run, listed)
    ensures var v := HandOver(job, w, listed).0;
            (other in v.events <==> other in w.events) && (other in w.events ==> v.events[other] == w.events[other])
  {
    hide PrepareEach, KeysOf, Retryable, Deliver, Delivered, AcceptedTimes, Distinct;
    var prepared, ready := World(PrepareEach(w.events, job.run, listed), w.log), Ready(job, w, listed);
    UnlistedUnprepared(w.events, job.run, listed, other);
    RetryableAt(prepared.events, KeysOf(job.run, listed), job.maxAttempts);
    DeliverDeliversOnce(job, prepared, NONE, ready, other);
  }
}
