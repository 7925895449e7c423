/** Handing synced jobs over to the notification service (src/modules/notifications/handoff.py). */
module Handoff {
  import opened Sequences

  type RunId = string

  /** An event belongs to one scrape run and one job identity. */
  datatype Key = Key(run: RunId, platform: string, externalId: string)

  datatype Status = Pending | Sent | Failed | DeadLetter

  datatype Event = Event(status: Status, attemptCount: nat, payload: int)

  type Events = map<Key, Event>

  /** A synced job of a run, with the candidate payload made from it. */
  datatype Synced = Synced(platform: string, externalId: string, payload: int)

  function KeyOf(run: RunId, s: Synced): Key { Key(run, s.platform, s.externalId) }

  function KeysOf(run: RunId, listed: seq<Synced>): seq<Key> {
    if listed == [] then [] else KeysOf(run, listed[..|listed| - 1]) + [KeyOf(run, listed[|listed| - 1])]
  }

  function Prepared(events: Events, key: Key, payload: int): Event {
    if key in events then events[key].(payload := payload) else Event(Pending, 0, payload)
  }

  function PrepareEach(events: Events, run: RunId, listed: seq<Synced>): Events {
    if listed == [] then events
    else
      var now, last := PrepareEach(events, run, listed[..|listed| - 1]), listed[|listed| - 1];
      now[KeyOf(run, last) := Prepared(now, KeyOf(run, last), last.payload)]
  }

  predicate IsRetryable(event: Event, maxAttempts: int) {
    event.status.Pending? || (event.status.Failed? && event.attemptCount < maxAttempts)
  }

  function Retryable(events: Events, keys: seq<Key>, maxAttempts: int): seq<Key> {
    if keys == [] then []
    else
      var last := keys[|keys| - 1];
      Retryable(events, keys[..|keys| - 1], maxAttempts)
      + if last in events && IsRetryable(events[last], maxAttempts) then [last] else []
  }

  function Recorded(event: Event, ok: bool, maxAttempts: int): Event {
    var attempts := event.attemptCount + 1;
    event.(attemptCount := attempts,
           status := if ok then Sent else if attempts >= maxAttempts then DeadLetter else Failed)
  }

  function RecordEach(events: Events, keys: seq<Key>, ok: bool, maxAttempts: int): Events {
    if keys == [] then events
    else
      var now, last := RecordEach(events, keys[..|keys| - 1], ok, maxAttempts), keys[|keys| - 1];
      if last in now then now[last := Recorded(now[last], ok, maxAttempts)] else now
  }

  datatype Delivery = Delivery(keys: seq<Key>, ok: bool)

  datatype World = World(events: Events, log: seq<Delivery>)

  datatype Tally = Tally(sent: nat, failed: nat, chunksAttempted: nat, chunksFailed: nat, chunks: seq<seq<Key>>)

  datatype Report = Report(attempted: nat, tally: Tally)

  const NONE := Tally(0, 0, 0, 0, [])

  datatype Job = Job(run: RunId, maxAttempts: int, batchSize: nat, client: nat -> bool)

  function DeliverChunk(job: Job, w: World, chunk: seq<Key>): World {
    var ok := job.client(|w.log|);
    World(RecordEach(w.events, chunk, ok, job.maxAttempts), w.log + [Delivery(chunk, ok)])
  }

  function Counted(t: Tally, chunk: seq<Key>, ok: bool): Tally {
    Tally(t.sent + (if ok then |chunk| else 0), t.failed + (if ok then 0 else |chunk|),
          t.chunksAttempted + 1, t.chunksFailed + (if ok then 0 else 1), t.chunks + [chunk])
  }

  /** Delivers the keys chunk by chunk. */
  function Deliver(job: Job, w: World, t: Tally, keys: seq<Key>): (World, Tally)
    requires job.batchSize >= 1
    decreases |keys|
  {
    if keys == [] then (w, t)
    else
      var n := if |keys| <= job.batchSize then |keys| else job.batchSize;
      Deliver(job, DeliverChunk(job, w, keys[..n]), Counted(t, keys[..n], job.client(|w.log|)), keys[n..])
  }

  function Ready(job: Job, w: World, listed: seq<Synced>): seq<Key> {
    Retryable(PrepareEach(w.events, job.run, listed), KeysOf(job.run, listed), job.maxAttempts)
  }

  function HandOver(job: Job, w: World, listed: seq<Synced>): (World, Report)
    requires job.batchSize >= 1
  {
    var prepared := World(PrepareEach(w.events, job.run, listed), w.log);
    var (end, t) := Deliver(job, prepared, NONE, Ready(job, w, listed));
    (end, Report(|Ready(job, w, listed)|, t))
  }

  class HandoffClient {
    const behaviour: nat -> bool
    var log: seq<Delivery>

    constructor (behaviour: nat -> bool)
      ensures this.behaviour == behaviour && log == []
    {
      this.behaviour, this.log := behaviour, [];
    }

    /** Whether the candidates were taken; anything else raises. */
    method SendCandidates(keys: seq<Key>) returns (ok: bool)
      modifies this
      ensures ok == behaviour(|old(log)|) && log == old(log) + [Delivery(keys, ok)]
    {
      ok := behaviour(|log|);
      log := log + [Delivery(keys, ok)];
    }
  }

  class NotificationHandoffRepository {
    var events: Events

    constructor ()
      ensures events == map[]
    {
      events := map[];
    }

    method PrepareEvent(run: RunId, s: Synced) returns (key: Key)
      modifies this
      ensures key == KeyOf(run, s)
      ensures events == old(events)[key := Prepared(old(events), key, s.payload)]
    {
      key := KeyOf(run, s);
      if key in events {
        events := events[key := events[key].(payload := s.payload)];
      } else {
        events := events[key := Event(Pending, 0, s.payload)];
      }
    }

    method Record(key: Key, ok: bool, maxAttempts: int)
      requires key in events
      modifies this
      ensures events == old(events)[key := Recorded(old(events)[key], ok, maxAttempts)]
    {
      var event := events[key];
      event := event.(attemptCount := event.attemptCount + 1);
      if ok {
        event := event.(status := Sent);
      } else {
        event := event.(status := if event.attemptCount >= maxAttempts then DeadLetter else Failed);
      }
      events := events[key := event];
    }
  }

  class RecommendationHandoffWorker {
    const repository: NotificationHandoffRepository
    const client: HandoffClient
    const maxAttempts: int
    const batchSize: nat

    constructor (repository: NotificationHandoffRepository, client: HandoffClient, maxAttempts: int, batchSize: nat)
      requires batchSize >= 1
      ensures this.repository == repository && this.client == client
      ensures this.maxAttempts == maxAttempts && this.batchSize == batchSize
    {
      this.repository, this.client, this.maxAttempts, this.batchSize := repository, client, maxAttempts, batchSize;
    }

    method PrepareAll(run: RunId, listed: seq<Synced>) returns (keys: seq<Key>)
      modifies repository
      ensures keys == KeysOf(run, listed)
      ensures repository.events == PrepareEach(old(repository.events), run, listed)
      ensures forall key | key in keys :: key in repository.events
    {
      keys := [];
      var i := 0;
      while i < |listed|
        invariant 0 <= i <= |listed| && keys == KeysOf(run, listed[..i])
        invariant repository.events == PrepareEach(old(repository.events), run, listed[..i])
        invariant forall key | key in keys :: key in repository.events
      {
        assert listed[..i + 1][..i] == listed[..i];
        var key := repository.PrepareEvent(run, listed[i]);
        keys := keys + [key];
        i := i + 1;
      }
      assert listed[..i] == listed;
    }

    method SelectRetryable(keys: seq<Key>) returns (retryable: seq<Key>)
      requires forall key | key in keys :: key in repository.events
      ensures retryable == Retryable(repository.events, keys, maxAttempts)
      ensures forall key | key in retryable :: key in repository.events
    {
      retryable := [];
      var i := 0;
      while i < |keys|
        invariant 0 <= i <= |keys| && retryable == Retryable(repository.events, keys[..i], maxAttempts)
        invariant forall key | key in retryable :: key in repository.events
      {
        assert keys[..i + 1][..i] == keys[..i];
        if IsRetryable(repository.events[keys[i]], maxAttempts) {
          retryable := retryable + [keys[i]];
        }
        i := i + 1;
      }
      assert keys[..i] == keys;
    }

    method RecordChunk(chunk: seq<Key>, ok: bool) returns (n: nat)
      requires forall key | key in chunk :: key in repository.events
      modifies repository
      ensures repository.events == RecordEach(old(repository.events), chunk, ok, maxAttempts)
      ensures repository.events.Keys == old(repository.events.Keys) && n == |chunk|
    {
      n := 0;
      while n < |chunk|
        invariant 0 <= n <= |chunk| && repository.events.Keys == old(repository.events.Keys)
        invariant repository.events == RecordEach(old(repository.events), chunk[..n], ok, maxAttempts)
      {
        assert chunk[..n + 1][..n] == chunk[..n] && chunk[n] in chunk;
        repository.Record(chunk[n], ok, maxAttempts);
        n := n + 1;
      }
      assert chunk[..n] == chunk;
    }

    method SendChunk(ghost run: RunId, chunk: seq<Key>, t: Tally) returns (u: Tally)
      requires forall key | key in chunk :: key in repository.events
      modifies repository, client
      ensures repository.events.Keys == old(repository.events.Keys)
      ensures World(repository.events, client.log)
              == DeliverChunk(Job(run, maxAttempts, batchSize, client.behaviour),
                              World(old(repository.events), old(client.log)), chunk)
      ensures u == Counted(t, chunk, client.behaviour(|old(client.log)|))
    {
      u := t.(chunksAttempted := t.chunksAttempted + 1, chunks := t.chunks + [chunk]);
      var ok := client.SendCandidates(chunk);
      var n := RecordChunk(chunk, ok);
      if ok {
        u := u.(sent := u.sent + n);
      } else {
        u := u.(failed := u.failed + n, chunksFailed := u.chunksFailed + 1);
      }
    }

    method SendAll(ghost run: RunId, ready: seq<Key>) returns (t: Tally)
      requires batchSize >= 1
      requires forall key | key in ready :: key in repository.events
      modifies repository, client
      ensures (World(repository.events, client.log), t)
              == Deliver(Job(run, maxAttempts, batchSize, client.behaviour),
                         World(old(repository.events), old(client.log)), NONE, ready)
    {
      hide Deliver, DeliverChunk, Counted;
      ghost var job := Job(run, maxAttempts, batchSize, client.behaviour);
      ghost var end := Deliver(job, World(repository.events, client.log), NONE, ready);
      t := NONE;
      var index := 0;
      assert ready[0..] == ready;
      while index < |ready|
        invariant 0 <= index <= |ready|
        invariant forall key | key in ready :: key in repository.events
        invariant Deliver(job, World(repository.events, client.log), t, ready[index..]) == end
        decreases |ready| - index
      {
        var next := if index + batchSize <= |ready| then index + batchSize else |ready|;
        var chunk := ready[index..next];
        DeliverNext(job, World(repository.events, client.log), t, ready, index, next);
        assert forall key | key in chunk :: key in ready;
        t := SendChunk(run, chunk, t);
        index := next;
      }
      DeliverNothing(job, World(repository.events, client.log), t, ready[index..]);
    }

    method HandoffSyncedJobs(run: RunId, listed: seq<Synced>) returns (report: Report)
      requires batchSize >= 1
      modifies repository, client
      ensures (World(repository.events, client.log), report)
              == HandOver(Job(run, maxAttempts, batchSize, client.behaviour),
                          World(old(repository.events), old(client.log)), listed)
    {
      hide PrepareEach, KeysOf, Retryable;
      ghost var start := World(repository.events, client.log);
      var keys := PrepareAll(run, listed);
      var ready := SelectRetryable(keys);
      if ready == [] {
        return Report(0, NONE);
      }
      hide Deliver;
      var t := SendAll(run, ready);
      report := Report(|ready|, t);
    }
  }

  lemma DeliverNext(job: Job, w: World, t: Tally, ready: seq<Key>, index: nat, next: nat)
    requires job.batchSize >= 1 && index < next <= |ready|
    requires next == if index + job.batchSize <= |ready| then index + job.batchSize else |ready|
    ensures Deliver(job, w, t, ready[index..])
            == Deliver(job, DeliverChunk(job, w, ready[index..next]),
                       Counted(t, ready[index..next], job.client(|w.log|)), ready[next..])
  {
    hide DeliverChunk, Counted;
    var rest := ready[index..];
    assert rest[..next - index] == ready[index..next] && rest[next - index..] == ready[next..];
  }

  lemma DeliverNothing(job: Job, w: World, t: Tally, none: seq<Key>)
    requires job.batchSize >= 1 && none == []
    ensures Deliver(job, w, t, none) == (w, t)
  {
  }

  // ---------------------------------------------------------------------
  // One run
  // ---------------------------------------------------------------------

  function Occurrences(keys: seq<Key>, key: Key): nat {
    if keys == [] then 0
    else Occurrences(keys[..|keys| - 1], key) + if keys[|keys| - 1] == key then 1 else 0
  }

  /** How often a candidate was delivered, and how often it was accepted. */
  function Delivered(log: seq<Delivery>, key: Key): nat {
    if log == [] then 0 else Delivered(log[..|log| - 1], key) + Occurrences(log[|log| - 1].keys, key)
  }

  function AcceptedTimes(log: seq<Delivery>, key: Key): nat {
    if log == [] then 0
    else
      AcceptedTimes(log[..|log| - 1], key)
      + if log[|log| - 1].ok then Occurrences(log[|log| - 1].keys, key) else 0
  }

  lemma LogGrows(log: seq<Delivery>, d: Delivery, key: Key)
    ensures Delivered(log + [d], key) == Delivered(log, key) + Occurrences(d.keys, key)
    ensures AcceptedTimes(log + [d], key)
            == AcceptedTimes(log, key) + (if d.ok then Occurrences(d.keys, key) else 0)
  {
    assert (log + [d])[..|log|] == log;
  }

  lemma {:induction false} OccurrencesConcat(a: seq<Key>, b: seq<Key>, key: Key)
    ensures Occurrences(a + b, key) == Occurrences(a, key) + Occurrences(b, key)
    decreases |b|
  {
    if b == [] {
      assert a + b == a;
    } else {
      assert (a + b)[..|a + b| - 1] == a + b[..|b| - 1];
      OccurrencesConcat(a, b[..|b| - 1], key);
    }
  }

  lemma CountedAddsChunk(t: Tally, chunk: seq<Key>, ok: bool, batchSize: nat)
    requires 1 <= |chunk| <= batchSize
    ensures var u := Counted(t, chunk, ok);
            && Flatten(u.chunks) == Flatten(t.chunks) + chunk
            && u.sent + u.failed == t.sent + t.failed + |chunk|
            && |u.chunks| - |t.chunks| == u.chunksAttempted - t.chunksAttempted
            && (forall c | c in u.chunks :: c in t.chunks || 1 <= |c| <= batchSize)
  {
    assert (t.chunks + [chunk])[..|t.chunks|] == t.chunks;
  }

  lemma Rejoin(a: seq<Key>, keys: seq<Key>, n: nat)
    requires n <= |keys|
    ensures (a + keys[..n]) + keys[n..] == a + keys
  {
  }

  /** Everything that is ready is delivered once, in order, in chunks no larger than the
      batch size, and counted as sent or as failed. */
  lemma {:induction false} ChunksPartition(job: Job, w: World, t: Tally, keys: seq<Key>)
    requires job.batchSize >= 1
    ensures var (end, u) := Deliver(job, w, t, keys);
            && Flatten(u.chunks) == Flatten(t.chunks) + keys
            && u.sent + u.failed == t.sent + t.failed + |keys|
            && |u.chunks| - |t.chunks| == u.chunksAttempted - t.chunksAttempted
            && (forall c | c in u.chunks :: c in t.chunks || 1 <= |c| <= job.batchSize)
    decreases |keys|
  {
    hide DeliverChunk, Counted, Flatten;
    if keys == [] {
      assert Flatten(t.chunks) + [] == Flatten(t.chunks);
    } else {
      var n := if |keys| <= job.batchSize then |keys| else job.batchSize;
      var ok := job.client(|w.log|);
      CountedAddsChunk(t, keys[..n], ok, job.batchSize);
      ChunksPartition(job, DeliverChunk(job, w, keys[..n]), Counted(t, keys[..n], ok), keys[n..]);
      Rejoin(Flatten(t.chunks), keys, n);
    }
  }

  /** The report of a run adds up. */
  lemma HandoffAddsUp(job: Job, w: World, listed: seq<Synced>)
    requires job.batchSize >= 1
    ensures var (end, report) := HandOver(job, w, listed);
            && report.attempted == report.tally.sent + report.tally.failed
            && Flatten(report.tally.chunks) == Ready(job, w, listed)
  {
    hide PrepareEach, Retryable, Ready;
    ChunksPartition(job, World(PrepareEach(w.events, job.run, listed), w.log), NONE, Ready(job, w, listed));
    assert [] + Ready(job, w, listed) == Ready(job, w, listed);
  }

  predicate Distinct(keys: seq<Key>) {
    forall i, j | 0 <= i < j < |keys| :: keys[i] != keys[j]
  }

  lemma {:induction false} OccursOnce(keys: seq<Key>, key: Key)
    requires Distinct(keys)
    ensures Occurrences(keys, key) == if key in keys then 1 else 0
  {
    if keys != [] {
      var front := keys[..|keys| - 1];
      OccursOnce(front, key);
      assert keys == front + [keys[|keys| - 1]];
    }
  }

  lemma {:induction false} RecordEachAt(events: Events, keys: seq<Key>, ok: bool, maxAttempts: int, key: Key)
    requires Distinct(keys)
    ensures var after := RecordEach(events, keys, ok, maxAttempts);
            && (key in after <==> key in events)
            && (key in events ==>
                  after[key] == if key in keys then Recorded(events[key], ok, maxAttempts) else events[key])
  {
    if keys != [] {
      var front, last := keys[..|keys| - 1], keys[|keys| - 1];
      assert keys == front + [last] && last !in front;
      RecordEachAt(events, front, ok, maxAttempts, key);
    }
  }

  /** What the delivery of distinct keys means for one of them. */
  ghost predicate DeliveredOnce(job: Job, before: World, after: World, keys: seq<Key>, key: Key) {
    if key !in keys then
      && (key in after.events <==> key in before.events)
      && (key in before.events ==> after.events[key] == before.events[key])
      && Delivered(after.log, key) == Delivered(before.log, key)
      && AcceptedTimes(after.log, key) == AcceptedTimes(before.log, key)
    else
      && key in after.events && key in before.events
      && Delivered(after.log, key) == Delivered(before.log, key) + 1
      && exists ok :: after.events[key] == Recorded(before.events[key], ok, job.maxAttempts)
                      && AcceptedTimes(after.log, key) == AcceptedTimes(before.log, key) + if ok then 1 else 0
  }

  lemma ChunkDeliversOnce(job: Job, w: World, chunk: seq<Key>, key: Key)
    requires Distinct(chunk) && (key in chunk ==> key in w.events)
    ensures DeliveredOnce(job, w, DeliverChunk(job, w, chunk), chunk, key)
  {
    hide RecordEach, Delivered, AcceptedTimes, Occurrences;
    var ok := job.client(|w.log|);
    OccursOnce(chunk, key);
    LogGrows(w.log, Delivery(chunk, ok), key);
    RecordEachAt(w.events, chunk, ok, job.maxAttempts, key);
  }

  lemma SplitDistinct(keys: seq<Key>, n: nat)
    requires Distinct(keys) && n <= |keys|
    ensures Distinct(keys[..n]) && Distinct(keys[n..])
    ensures forall key | key in keys :: key in keys[..n] <==> key !in keys[n..]
    ensures forall key | key in keys[..n] :: key in keys
    ensures forall key | key in keys[n..] :: key in keys
  {
    assert keys == keys[..n] + keys[n..];
  }

  lemma {:induction false} DeliverDeliversOnce(job: Job, w: World, t: Tally, keys: seq<Key>, key: Key)
    requires job.batchSize >= 1 && Distinct(keys)
    requires forall k | k in keys :: k in w.events
    ensures DeliveredOnce(job, w, Deliver(job, w, t, keys).0, keys, key)
    decreases |keys|
  {
    if keys != [] {
      hide Distinct, DeliverChunk, Delivered, AcceptedTimes;
      var n := if |keys| <= job.batchSize then |keys| else job.batchSize;
      var chunk, rest := keys[..n], keys[n..];
      SplitDistinct(keys, n);
      var next := DeliverChunk(job, w, chunk);
      forall k | k in rest ensures k in next.events {
        ChunkDeliversOnce(job, w, chunk, k);
      }
      ChunkDeliversOnce(job, w, chunk, key);
      DeliverDeliversOnce(job, next, Counted(t, chunk, job.client(|w.log|)), rest, key);
    }
  }

  // ---------------------------------------------------------------------
  // Any number of runs
  // ---------------------------------------------------------------------

  predicate DistinctIdentities(run: RunId, listed: seq<Synced>) {
    Distinct(KeysOf(run, listed))
  }

  /** How often a candidate can be delivered. A pending event is tried without a look at the
      limit, so a limit below one still allows one delivery. */
  function Allowed(maxAttempts: int): nat {
    if maxAttempts >= 1 then maxAttempts else 1
  }

  /** The event of a key tells exactly what happened to its candidate. */
  ghost predicate Honest(w: World, maxAttempts: int, key: Key) {
    && Delivered(w.log, key) == (if key in w.events then w.events[key].attemptCount else 0)
    && AcceptedTimes(w.log, key) == (if key in w.events && w.events[key].status.Sent? then 1 else 0)
    && (key in w.events ==>
          && w.events[key].attemptCount <= Allowed(maxAttempts)
          && (w.events[key].status.Pending? ==> w.events[key].attemptCount == 0))
  }

  lemma {:induction false} PrepareEachAt(events: Events, run: RunId, listed: seq<Synced>, key: Key)
    ensures var after := PrepareEach(events, run, listed);
            && (key in after <==> key in events || key in KeysOf(run, listed))
            && (key in events ==> after[key].status == events[key].status
                                  && after[key].attemptCount == events[key].attemptCount)
            && (key in after && key !in events ==> after[key].status.Pending? && after[key].attemptCount == 0)
  {
    if listed != [] {
      PrepareEachAt(events, run, listed[..|listed| - 1], key);
    }
  }

  lemma RetryableSnoc(events: Events, keys: seq<Key>, key: Key, maxAttempts: int)
    ensures Retryable(events, keys + [key], maxAttempts)
            == Retryable(events, keys, maxAttempts)
               + if key in events && IsRetryable(events[key], maxAttempts) then [key] else []
  {
    assert (keys + [key])[..|keys|] == keys;
  }

  lemma NoneRetryable(events: Events, maxAttempts: int)
    ensures Retryable(events, [], maxAttempts) == []
  {
  }

  lemma {:induction false} RetryableKeys(events: Events, keys: seq<Key>, maxAttempts: int, key: Key)
    requires key in Retryable(events, keys, maxAttempts)
    ensures key in keys && key in events && IsRetryable(events[key], maxAttempts)
  {
    hide Retryable, IsRetryable;
    if keys == [] {
      NoneRetryable(events, maxAttempts);
    } else {
      var front, last := keys[..|keys| - 1], keys[|keys| - 1];
      assert front + [last] == keys;
      RetryableSnoc(events, front, last, maxAttempts);
      if key in Retryable(events, front, maxAttempts) {
        RetryableKeys(events, front, maxAttempts, key);
      }
    }
  }

  lemma DistinctSnoc(keys: seq<Key>, key: Key)
    ensures Distinct(keys + [key]) <==> Distinct(keys) && key !in keys
  {
    var all := keys + [key];
    assert all[|keys|] == key && forall i | 0 <= i < |keys| :: all[i] == keys[i];
    if key in keys {
      var i :| 0 <= i < |keys| && keys[i] == key;
      assert all[i] == all[|keys|];
    }
  }

  lemma {:induction false} RetryableDistinct(events: Events, keys: seq<Key>, maxAttempts: int)
    requires Distinct(keys)
    ensures Distinct(Retryable(events, keys, maxAttempts))
  {
    hide Retryable, Distinct, IsRetryable;
    if keys == [] {
      NoneRetryable(events, maxAttempts);
    } else {
      var front, last := keys[..|keys| - 1], keys[|keys| - 1];
      assert front + [last] == keys;
      RetryableSnoc(events, front, last, maxAttempts);
      DistinctSnoc(front, last);
      var ready := Retryable(events, front, maxAttempts);
      RetryableDistinct(events, front, maxAttempts);
      DistinctSnoc(ready, last);
      if last in ready {
        RetryableKeys(events, front, maxAttempts, last);
      }
      assert ready + [] == ready;
    }
  }

  lemma RetryableAt(events: Events, keys: seq<Key>, maxAttempts: int)
    ensures var ready := Retryable(events, keys, maxAttempts);
            && (forall key | key in ready :: key in keys && key in events && IsRetryable(events[key], maxAttempts))
            && (Distinct(keys) ==> Distinct(ready))
  {
    hide Retryable, Distinct, IsRetryable;
    forall key | key in Retryable(events, keys, maxAttempts)
      ensures key in keys && key in events && IsRetryable(events[key], maxAttempts)
    {
      RetryableKeys(events, keys, maxAttempts, key);
    }
    if Distinct(keys) {
      RetryableDistinct(events, keys, maxAttempts);
    }
  }

  /** A run over distinct identities keeps every event honest. */
  lemma RunKeepsHonest(job: Job, w: World, listed: seq<Synced>, key: Key)
    requires job.batchSize >= 1 && DistinctIdentities(job.run, listed)
    requires Honest(w, job.maxAttempts, key)
    ensures Honest(HandOver(job, w, listed).0, job.maxAttempts, key)
  {
    hide PrepareEach, KeysOf, Retryable, Deliver, Delivered, AcceptedTimes, Distinct;
    var prepared := World(PrepareEach(w.events, job.run, listed), w.log);
    var ready := Ready(job, w, listed);
    PrepareEachAt(w.events, job.run, listed, key);
    RetryableAt(prepared.events, KeysOf(job.run, listed), job.maxAttempts);
    DeliverDeliversOnce(job, prepared, NONE, ready, key);
  }

  datatype Request = Request(run: RunId, batchSize: nat, listed: seq<Synced>)

  /** The world after a sequence of runs; a worker with no batch size is refused. */
  function History(client: nat -> bool, maxAttempts: int, requests: seq<Request>): World {
    if requests == [] then World(map[], [])
    else
      var w, last := History(client, maxAttempts, requests[..|requests| - 1]), requests[|requests| - 1];
      if last.batchSize < 1 then w
      else HandOver(Job(last.run, maxAttempts, last.batchSize, client), w, last.listed).0
  }

  predicate Acceptable(requests: seq<Request>) {
    forall r | r in requests :: DistinctIdentities(r.run, r.listed)
  }

  /** Over any number of runs and however the notification service behaves, each
      candidate is delivered at most as often as attempts are allowed and accepted at
      most once, its event counts its deliveries, and it is recorded as sent exactly
      when it was accepted. */
  lemma {:induction false} CandidatesAreDeliveredWithinLimits(client: nat -> bool, maxAttempts: int,
                                                              requests: seq<Request>, key: Key)
    requires Acceptable(requests)
    ensures Honest(History(client, maxAttempts, requests), maxAttempts, key)
    ensures Delivered(History(client, maxAttempts, requests).log, key) <= Allowed(maxAttempts)
    ensures AcceptedTimes(History(client, maxAttempts, requests).log, key) <= 1
  {
    if requests != [] {
      hide HandOver, DistinctIdentities;
      var front, last := requests[..|requests| - 1], requests[|requests| - 1];
      assert last in requests && forall r | r in front :: r in requests;
      CandidatesAreDeliveredWithinLimits(client, maxAttempts, front, key);
      if last.batchSize >= 1 {
        RunKeepsHonest(Job(last.run, maxAttempts, last.batchSize, client), History(client, maxAttempts, front),
                       last.listed, key);
      }
    }
  }

  ghost predicate StaysWithinLimit(maxAttempts: int) {
    forall client: nat -> bool, requests: seq<Request>, key: Key | Acceptable(requests) ::
      Delivered(History(client, maxAttempts, requests).log, key) <= maxAttempts
  }

  lemma {:induction false} AcceptedIsDelivered(log: seq<Delivery>, key: Key)
    ensures AcceptedTimes(log, key) <= Delivered(log, key)
  {
    if log != [] {
      AcceptedIsDelivered(log[..|log| - 1], key);
    }
  }

  /** The limit is one exactly when it allows an attempt at all. */
  lemma LimitHoldsExactlyFromOne(maxAttempts: int)
    ensures StaysWithinLimit(maxAttempts) <==> maxAttempts >= 1
  {
    hide Honest, History, Acceptable, Delivered;
    if maxAttempts >= 1 {
      forall client: nat -> bool, requests: seq<Request>, key: Key | Acceptable(requests)
        ensures Delivered(History(client, maxAttempts, requests).log, key) <= maxAttempts
      {
        CandidatesAreDeliveredWithinLimits(client, maxAttempts, requests, key);
      }
    } else {
      var key := OneIsDelivered(maxAttempts);
    }
  }

  /** A first run over one job delivers it, whatever the limit says. */
  lemma OneIsDelivered(maxAttempts: int) returns (key: Key)
    ensures var requests := [Request("run", 1, [Synced("platform", "id", 0)])];
            Acceptable(requests) && Delivered(History(Agrees, maxAttempts, requests).log, key) >= 1
  {
    hide HandOver, AcceptedTimes, Delivered, Occurrences;
    var s := Synced("platform", "id", 0);
    var requests := [Request("run", 1, [s])];
    key := KeyOf("run", s);
    assert [s][..0] == [] && KeysOf("run", []) == [] && KeysOf("run", [s]) == [key];
    OccursOnce([key], key);
    FirstRunAccepts(Job("run", maxAttempts, 1, Agrees), [s], key);
    assert requests[..0] == [] && History(Agrees, maxAttempts, []) == World(map[], []);
    AcceptedIsDelivered(History(Agrees, maxAttempts, requests).log, key);
  }

  // ---------------------------------------------------------------------
  // Distinct identities are what it takes
  // ---------------------------------------------------------------------

  function Agrees(n: nat): bool { true }

  lemma {:induction false} WillingClientTakesAll(job: Job, w: World, t: Tally, keys: seq<Key>, key: Key)
    requires job.batchSize >= 1 && forall n :: job.client(n) == Agrees(n)
    ensures AcceptedTimes(Deliver(job, w, t, keys).0.log, key) == AcceptedTimes(w.log, key) + Occurrences(keys, key)
    decreases |keys|
  {
    if keys != [] {
      hide AcceptedTimes, Occurrences, RecordEach;
      var n := if |keys| <= job.batchSize then |keys| else job.batchSize;
      assert job.client(|w.log|) == Agrees(|w.log|);
      LogGrows(w.log, Delivery(keys[..n], true), key);
      assert keys == keys[..n] + keys[n..];
      OccurrencesConcat(keys[..n], keys[n..], key);
      WillingClientTakesAll(job, DeliverChunk(job, w, keys[..n]), Counted(t, keys[..n], true), keys[n..], key);
    }
  }

  predicate AllPending(events: Events, keys: seq<Key>) {
    forall key | key in keys :: key in events && events[key].status.Pending?
  }

  lemma AllPendingParts(events: Events, keys: seq<Key>)
    requires AllPending(events, keys) && keys != []
    ensures AllPending(events, keys[..|keys| - 1])
    ensures keys[|keys| - 1] in events && events[keys[|keys| - 1]].status.Pending?
  {
  }

  lemma {:induction false} AllRetryable(events: Events, keys: seq<Key>, maxAttempts: int)
    requires AllPending(events, keys)
    ensures Retryable(events, keys, maxAttempts) == keys
  {
    hide Retryable, AllPending;
    if keys == [] {
      NoneRetryable(events, maxAttempts);
    } else {
      var front, last := keys[..|keys| - 1], keys[|keys| - 1];
      AllPendingParts(events, keys);
      AllRetryable(events, front, maxAttempts);
      RetryableSnoc(events, front, last, maxAttempts);
      assert front + [last] == keys;
    }
  }

  /** With a willing service a first run has each key accepted as often as it is listed. */
  lemma FirstRunAccepts(job: Job, listed: seq<Synced>, key: Key)
    requires job.batchSize >= 1 && forall n :: job.client(n) == Agrees(n)
    ensures AcceptedTimes(HandOver(job, World(map[], []), listed).0.log, key)
            == Occurrences(KeysOf(job.run, listed), key)
  {
    hide PrepareEach, Retryable, Deliver, AcceptedTimes, Occurrences, KeysOf;
    var keys := KeysOf(job.run, listed);
    var prepared := World(PrepareEach(map[], job.run, listed), []);
    forall k | k in keys ensures k in prepared.events && prepared.events[k].status.Pending? {
      PrepareEachAt(map[], job.run, listed, k);
    }
    AllRetryable(prepared.events, keys, job.maxAttempts);
    WillingClientTakesAll(job, prepared, NONE, keys, key);
    NothingAccepted(key);
  }

  lemma {:induction false} RepeatOccursTwice(keys: seq<Key>, i: nat, j: nat)
    requires i < j < |keys| && keys[i] == keys[j]
    ensures Occurrences(keys, keys[i]) >= 2
    decreases |keys|
  {
    var front := keys[..|keys| - 1];
    if j < |front| {
      RepeatOccursTwice(front, i, j);
    } else {
      OccursSomewhere(front, i);
    }
  }

  lemma {:induction false} OccursSomewhere(keys: seq<Key>, i: nat)
    requires i < |keys|
    ensures Occurrences(keys, keys[i]) >= 1
    decreases |keys|
  {
    if i < |keys| - 1 {
      OccursSomewhere(keys[..|keys| - 1], i);
    }
  }

  ghost predicate AcceptsOnce(job: Job, listed: seq<Synced>)
    requires job.batchSize >= 1
  {
    forall key :: AcceptedTimes(HandOver(job, World(map[], []), listed).0.log, key) <= 1
  }

  /** With a willing service, a first run delivers each candidate once exactly when no
      identity is listed twice. */
  lemma OnceExactlyWhenDistinct(job: Job, listed: seq<Synced>)
    requires job.batchSize >= 1 && forall n :: job.client(n) == Agrees(n)
    ensures AcceptsOnce(job, listed) <==> DistinctIdentities(job.run, listed)
  {
    hide HandOver, AcceptedTimes, Occurrences;
    var keys := KeysOf(job.run, listed);
    forall key ensures AcceptedTimes(HandOver(job, World(map[], []), listed).0.log, key) == Occurrences(keys, key) {
      FirstRunAccepts(job, listed, key);
    }
    if Distinct(keys) {
      forall key ensures Occurrences(keys, key) <= 1 {
        OccursOnce(keys, key);
      }
    } else {
      var i, j :| 0 <= i < j < |keys| && keys[i] == keys[j];
      RepeatOccursTwice(keys, i, j);
    }
  }

  lemma NothingAccepted(key: Key)
    ensures AcceptedTimes([], key) == 0
  {
  }
}
