/** Delivery records of the backend sync (src/modules/sync/events.py): one event
    per job and payload hash, moved by the outcome of each submission. */
module SyncEvents {
  import opened Wrappers

  type JobId = int
  type RunId = string

  /** A payload is identified with its hash. The two kinds of payload a job can be
      filed under are kept apart: the normalized record and the backend payload. */
  datatype PayloadHash = OfNormalized(digest: int) | OfBackend(digest: int)

  /** `backend` is the backend payload, absent when the contract rejects the job. */
  datatype Job = Job(id: JobId, normalized: int, backend: Option<int>)

  datatype Key = Key(job: JobId, hash: PayloadHash)

  datatype EventStatus = Pending | Sent | Failed | DeadLetter

  datatype SyncEvent = SyncEvent(status: EventStatus, attemptCount: nat, runId: Option<RunId>)

  type Events = map<Key, SyncEvent>

  /** The key under which a job's submission is filed. */
  function KeyOf(job: Job): Key {
    Key(job.id, match job.backend case Some(d) => OfBackend(d) case None => OfNormalized(job.normalized))
  }

  function FindEvent(events: Events, key: Key): Option<SyncEvent> {
    if key in events then Some(events[key]) else None
  }

  predicate IsRetryable(event: SyncEvent, maxAttempts: int) {
    event.status.Pending? || (event.status.Failed? && event.attemptCount < maxAttempts)
  }

  /** The event a submission starts from: the stored one, or a new pending one. */
  function Prepared(events: Events, key: Key, run: Option<RunId>): SyncEvent {
    match FindEvent(events, key)
    case Some(event) => event.(runId := run)
    case None => SyncEvent(Pending, 0, run)
  }

  function Accepted(event: SyncEvent): SyncEvent {
    event.(status := Sent, attemptCount := event.attemptCount + 1)
  }

  function Rejected(event: SyncEvent, maxAttempts: int): SyncEvent {
    var attempts := event.attemptCount + 1;
    event.(status := if attempts >= maxAttempts then DeadLetter else Failed, attemptCount := attempts)
  }

  class SyncEventRepository {
    var events: Events

    constructor ()
      ensures events == map[]
    {
      events := map[];
    }

    method PrepareEvent(key: Key, run: Option<RunId>)
      modifies this
      ensures events == old(events)[key := Prepared(old(events), key, run)]
    {
      if key in events {
        events := events[key := events[key].(runId := run)];
      } else {
        events := events[key := SyncEvent(Pending, 0, run)];
      }
    }

    method RecordSuccess(key: Key)
      requires key in events
      modifies this
      ensures events == old(events)[key := Accepted(old(events)[key])]
    {
      var event := events[key];
      event := event.(status := Sent);
      event := event.(attemptCount := event.attemptCount + 1);
      events := events[key := event];
    }

    method RecordFailure(key: Key, maxAttempts: int)
      requires key in events
      modifies this
      ensures events == old(events)[key := Rejected(old(events)[key], maxAttempts)]
    {
      var event := events[key];
      event := event.(attemptCount := event.attemptCount + 1);
      event := event.(status := if event.attemptCount >= maxAttempts then DeadLetter else Failed);
      events := events[key := event];
    }
  }
}
