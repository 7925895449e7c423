/** What a normalize stage does to its database session. */
module NormalizeSession {
  import opened Eligibility
  import opened Wrappers
  import opened Normalize
  import opened NormalizeReport

  // ---------------------------------------------------------------------
  // Nothing uncommitted at an AI call
  // ---------------------------------------------------------------------

  ghost predicate CallsAreClean(s: Stage) {
    forall call | call in s.calls :: call.uncommitted == []
  }

  lemma CommitLeavesNothing(w: World, s: Stage)
    requires !s.raised
    ensures var t := CommitProgress(w, s);
            t.calls == s.calls && t.result == s.result && (!t.raised ==> t.session.pending == [])
  {
  }

  lemma TurnKeepsCallsClean(w: World, s: Stage, turn: Turn)
    requires !s.raised && CallsAreClean(s)
    ensures CallsAreClean(Take(w, s, turn))
  {
    if turn.Requested? {
      CommitLeavesNothing(w, s);
    }
  }

  lemma {:induction false} TurnsKeepCallsClean(w: World, s: Stage, turns: seq<Turn>)
    requires CallsAreClean(s)
    ensures CallsAreClean(TakeAll(w, s, turns))
    decreases |turns|
  {
    if turns != [] && !s.raised {
      TurnKeepsCallsClean(w, s, turns[0]);
      TurnsKeepCallsClean(w, Take(w, s, turns[0]), turns[1..]);
    }
  }

  lemma BatchKeepsCallsClean(w: World, s: Stage, batch: seq<RowId>)
    requires !s.raised && CallsAreClean(s)
    ensures CallsAreClean(NormalizeBatch(w, s, batch))
  {
    hide TakeAll, Prompted;
    var prepared, ids := TakeAll(w, s, PreparedTurns(batch)), Prompted(w, batch);
    TurnsKeepCallsClean(w, s, PreparedTurns(batch));
    TurnsKeepCallsClean(w, prepared, RequestedTurns(ids));
    if !prepared.raised {
      CommitLeavesNothing(w, prepared);
      var clean := CommitProgress(w, prepared);
      if !clean.raised {
        TurnsKeepCallsClean(w, Called(clean, ids), AnsweredTurns(w, ids));
      }
    }
  }

  lemma {:induction false} BatchesKeepCallsClean(w: World, s: Stage, batches: seq<seq<RowId>>)
    requires CallsAreClean(s)
    ensures CallsAreClean(BatchTurns(w, s, batches))
    decreases |batches|
  {
    if batches != [] && !s.raised {
      hide NormalizeBatch;
      var clean := CommitProgress(w, s);
      CommitLeavesNothing(w, s);
      if !clean.raised {
        BatchKeepsCallsClean(w, clean, batches[0]);
        CommitKeepsCalls(w, NormalizeBatch(w, clean, batches[0]));
      }
      BatchesKeepCallsClean(w, BatchTurn(w, s, batches[0]), batches[1..]);
    }
  }

  lemma CommitKeepsCalls(w: World, s: Stage)
    ensures CommitProgress(w, s).calls == s.calls
  {
  }

  /** No AI call is ever made with a write of this stage uncommitted, not even in a stage
      that ends by raising. */
  lemma NothingUncommittedAtAiCalls(w: World, gate: Option<Known>, session: Session, raws: seq<RawJob>)
    requires w.batchSize > 0
    ensures CallsAreClean(NormalizeSource(w, gate, session, raws))
  {
    hide TakeAll, BatchTurns, Chunked;
    var ids, start := Admitted(gate, raws), Opened(gate, session, raws);
    if w.hasClient {
      BatchesKeepCallsClean(w, start, Chunked(ids, w.batchSize));
    } else {
      TurnsKeepCallsClean(w, start, MappedTurns(ids));
    }
  }

  // ---------------------------------------------------------------------
  // What the database keeps
  // ---------------------------------------------------------------------

  function Upserts(writes: seq<Write>): nat {
    |UpsertedIds(writes)|
  }

  /** How a session may move when at most `room` upserts are uncommitted at any time: every
      fault rolls back at most that many. */
  ghost predicate Moves(s: Session, t: Session, room: nat) {
    && s.faults <= t.faults
    && Upserts(t.discarded) <= Upserts(s.discarded) + room * (t.faults - s.faults)
  }

  /** From s to t the session moved within `room`, and at most `more` upserts became
      uncommitted. */
  ghost predicate Keeps(s: Stage, t: Stage, room: nat, more: nat) {
    !t.raised ==>
      && Moves(s.session, t.session, room)
      && Upserts(t.session.pending) <= Upserts(s.session.pending) + more
  }

  lemma AttemptMoves(w: World, s: Session, op: Operation)
    ensures var t := Attempt(w, s, op);
            && t.faults == s.faults + (if w.fails(|s.operations|) then 1 else 0)
            && Upserts(t.discarded)
               == Upserts(s.discarded) + (if w.fails(|s.operations|) then Upserts(s.pending) else 0)
            && Upserts(t.pending)
               == if w.fails(|s.operations|) || op.Commit? then 0 else Upserts(s.pending) + |IdOf(op)|
  {
    hide UpsertedIds, UpsertedBy;
    NoWrites();
    UpsertedIdsConcat(s.discarded, s.pending);
    if op.Insert? {
      UpsertedSnoc(s.pending, op.write);
    }
  }

  lemma RetryMoves(w: World, s: Stage, op: Operation, room: nat)
    requires Upserts(s.session.pending) <= room
    ensures var t := WithRetry(w, s, op);
            && Moves(s.session, t.session, room)
            && Upserts(t.session.pending) <= (if op.Commit? then 0 else Upserts(s.session.pending) + |IdOf(op)|)
  {
    hide Upserts, IdOf;
    var a := Attempt(w, s.session, op);
    AttemptMoves(w, s.session, op);
    AttemptMoves(w, a, op);
  }

  lemma CommitMoves(w: World, s: Stage, room: nat)
    requires Upserts(s.session.pending) <= room
    ensures var t := CommitProgress(w, s);
            Moves(s.session, t.session, room) && Upserts(t.session.pending) == 0
  {
    RetryMoves(w, s, Commit, room);
  }

  lemma MovesCompose(s: Session, t: Session, u: Session, room: nat)
    requires Moves(s, t, room) && Moves(t, u, room)
    ensures Moves(s, u, room)
  {
    hide Upserts;
    var a, b := t.faults - s.faults, u.faults - t.faults;
    assert room * (a + b) == room * a + room * b;
  }

  lemma StaysPut(s: Session, room: nat)
    ensures Moves(s, s, room)
  {
  }

  lemma LoggedKeeps(w: World, s: Stage, id: RowId, room: nat)
    requires Upserts(s.session.pending) + 1 <= room
    ensures Keeps(s, FailedAndLogged(w, s, id), room, 1) && Keeps(s, StoredAndLogged(w, s, id), room, 1)
  {
    hide Upserts, Moves, WithRetry;
    RetryMoves(w, Skipped(s, id), Insert(AiLog(id, false)), room);
    var stored := WithRetry(w, s, Insert(Upsert(id)));
    RetryMoves(w, s, Insert(Upsert(id)), room);
    RetryMoves(w, stored, Insert(AiLog(id, true)), room);
    MovesCompose(s.session, stored.session, WithRetry(w, stored, Insert(AiLog(id, true))).session, room);
  }

  lemma TurnKeeps(w: World, s: Stage, turn: Turn, room: nat)
    requires Upserts(s.session.pending) + |SettledBy(w, turn)| <= room
    ensures Keeps(s, Take(w, s, turn), room, |SettledBy(w, turn)|)
  {
    hide Upserts, Moves, WithRetry, FailedAndLogged, StoredAndLogged, CommitProgress;
    StaysPut(s.session, room);
    if SettledBy(w, turn) != multiset{} {
      RetryMoves(w, s, Insert(Upsert(turn.id)), room);
      LoggedKeeps(w, s, turn.id, room);
    }
    if turn.Requested? {
      CommitMoves(w, s, room);
      var called := Called(CommitProgress(w, s), [turn.id]);
      LoggedKeeps(w, called, turn.id, room);
      if !Take(w, s, turn).raised {
        MovesCompose(s.session, called.session, Take(w, s, turn).session, room);
      }
    }
  }

  lemma {:induction false} TurnsKeep(w: World, s: Stage, turns: seq<Turn>, room: nat)
    requires Upserts(s.session.pending) + |Settled(w, turns)| <= room
    ensures Keeps(s, TakeAll(w, s, turns), room, |Settled(w, turns)|)
    decreases |turns|
  {
    hide Upserts, Moves, Take, SettledBy;
    StaysPut(s.session, room);
    if turns != [] && !s.raised {
      var t := Take(w, s, turns[0]);
      TurnKeeps(w, s, turns[0], room);
      if !t.raised {
        TurnsKeep(w, t, turns[1..], room);
        if !TakeAll(w, t, turns[1..]).raised {
          MovesCompose(s.session, t.session, TakeAll(w, t, turns[1..]).session, room);
        }
      }
    }
  }

  lemma BatchCallKeeps(w: World, s: Stage, ids: seq<RowId>, room: nat)
    requires Upserts(s.session.pending) <= room && |ids| <= room
    ensures Keeps(s, BatchCall(w, s, ids), room, |ids|)
  {
    hide Upserts, Moves, TakeAll, AnsweredTurns, Settled, CommitProgress;
    CommitMoves(w, s, room);
    var clean := CommitProgress(w, s);
    if !clean.raised {
      var called := Called(clean, ids);
      AnswerSettlesEach(w, ids);
      TurnsKeep(w, called, AnsweredTurns(w, ids), room);
      if !BatchCall(w, s, ids).raised {
        MovesCompose(s.session, called.session, BatchCall(w, s, ids).session, room);
      }
    }
  }

  lemma BatchKeeps(w: World, s: Stage, batch: seq<RowId>, room: nat)
    requires Upserts(s.session.pending) == 0 && |batch| <= room
    ensures Keeps(s, NormalizeBatch(w, s, batch), room, |batch|)
  {
    hide Upserts, Moves, TakeAll, Prompted, PreparedTurns, RequestedTurns, Settled, BatchCall;
    var prepared, ids := TakeAll(w, s, PreparedTurns(batch)), Prompted(w, batch);
    PreparedSettle(w, batch);
    assert |Settled(w, PreparedTurns(batch))| + |ids| == |batch| by {
      assert |Settled(w, PreparedTurns(batch)) + multiset(ids)| == |multiset(batch)|;
    }
    TurnsSettle(w, ids);
    TurnsKeep(w, s, PreparedTurns(batch), room);
    if !prepared.raised && ids != [] {
      TurnsKeep(w, prepared, RequestedTurns(ids), room);
      BatchCallKeeps(w, prepared, ids, room);
      if !NormalizeBatch(w, s, batch).raised {
        MovesCompose(s.session, prepared.session, NormalizeBatch(w, s, batch).session, room);
      }
    }
  }

  lemma BatchTurnKeeps(w: World, s: Stage, batch: seq<RowId>, room: nat)
    requires Upserts(s.session.pending) == 0 && |batch| <= room
    ensures Keeps(s, BatchTurn(w, s, batch), room, 0)
  {
    hide Upserts, Moves, NormalizeBatch, CommitProgress;
    CommitMoves(w, s, room);
    var clean := CommitProgress(w, s);
    if !clean.raised {
      BatchKeeps(w, clean, batch, room);
      var done := NormalizeBatch(w, clean, batch);
      if !done.raised {
        MovesCompose(s.session, clean.session, done.session, room);
        CommitMoves(w, done, room);
        MovesCompose(s.session, done.session, CommitProgress(w, done).session, room);
      }
    }
  }

  lemma {:induction false} BatchesKeep(w: World, s: Stage, batches: seq<seq<RowId>>, room: nat)
    requires Upserts(s.session.pending) == 0
    requires forall b | b in batches :: |b| <= room
    ensures Keeps(s, BatchTurns(w, s, batches), room, 0)
    decreases |batches|
  {
    hide Upserts, Moves, BatchTurn;
    StaysPut(s.session, room);
    if batches != [] && !s.raised {
      var t := BatchTurn(w, s, batches[0]);
      BatchTurnKeeps(w, s, batches[0], room);
      if !t.raised {
        BatchesKeep(w, t, batches[1..], room);
        if !BatchTurns(w, t, batches[1..]).raised {
          MovesCompose(s.session, t.session, BatchTurns(w, t, batches[1..]).session, room);
        }
      }
    }
  }

  /** The most upserts one fault can roll back: a batch, or without a client everything. */
  function Room(w: World, gate: Option<Known>, raws: seq<RawJob>): nat {
    if w.hasClient && w.batchSize > 0 then w.batchSize else |Admitted(gate, raws)|
  }

  lemma WorkKeeps(w: World, gate: Option<Known>, start: Stage, raws: seq<RawJob>)
    requires w.batchSize > 0 && Upserts(start.session.pending) == 0
    ensures var t := Worked(w, start, Admitted(gate, raws));
            !t.raised ==> Moves(start.session, t.session, Room(w, gate, raws))
  {
    hide Upserts, Moves, TakeAll, BatchTurns, Chunked, MappedTurns, Settled, Admitted;
    var ids := Admitted(gate, raws);
    if w.hasClient {
      ChunksPartition(ids, w.batchSize);
      BatchesKeep(w, start, Chunked(ids, w.batchSize), w.batchSize);
    } else {
      TurnsSettle(w, ids);
      TurnsKeep(w, start, MappedTurns(ids), |ids|);
    }
  }

  // ---------------------------------------------------------------------
  // When a failed operation costs a job
  // ---------------------------------------------------------------------

  /** The session behind these operations. */
  function Replay(w: World, s: Session, ops: seq<Operation>): Session {
    if ops == [] then s else Attempt(w, Replay(w, s, ops[..|ops| - 1]), ops[|ops| - 1])
  }

  /** Operation k fails and meets an uncommitted upsert. */
  predicate StruckAt(w: World, s: Session, ops: seq<Operation>, k: nat)
    requires k < |ops|
  {
    w.fails(|s.operations| + k) && Upserts(Replay(w, s, ops[..k]).pending) > 0
  }

  predicate Struck(w: World, s: Session, ops: seq<Operation>) {
    exists k: nat | k < |ops| :: StruckAt(w, s, ops, k)
  }

  lemma StruckSnoc(w: World, s: Session, ops: seq<Operation>, op: Operation)
    ensures Struck(w, s, ops + [op]) <==>
            Struck(w, s, ops) || (w.fails(|s.operations| + |ops|) && Upserts(Replay(w, s, ops).pending) > 0)
  {
    hide Replay, Upserts;
    var all := ops + [op];
    assert all[..|ops|] == ops;
    assert StruckAt(w, s, all, |ops|) <==> w.fails(|s.operations| + |ops|) && Upserts(Replay(w, s, ops).pending) > 0;
    forall k: nat | k < |ops| ensures StruckAt(w, s, all, k) <==> StruckAt(w, s, ops, k) {
      assert all[..k] == ops[..k];
    }
    if Struck(w, s, all) {
      var k: nat :| k < |all| && StruckAt(w, s, all, k);
      assert k < |ops| ==> StruckAt(w, s, ops, k);
    }
    if Struck(w, s, ops) {
      var k: nat :| k < |ops| && StruckAt(w, s, ops, k);
      assert StruckAt(w, s, all, k);
    }
  }

  lemma {:induction false} ReplayLogs(w: World, s: Session, ops: seq<Operation>)
    ensures Replay(w, s, ops).operations == s.operations + ops
  {
    if ops != [] {
      ReplayLogs(w, s, ops[..|ops| - 1]);
      assert ops == ops[..|ops| - 1] + [ops[|ops| - 1]];
    }
  }

  lemma NothingStruck(w: World, s: Session)
    ensures !Struck(w, s, []) && Replay(w, s, []) == s
  {
  }

  lemma ReplaySnoc(w: World, s: Session, ops: seq<Operation>, op: Operation)
    ensures Replay(w, s, ops + [op]) == Attempt(w, Replay(w, s, ops), op)
  {
    hide Attempt;
    assert (ops + [op])[..|ops|] == ops;
  }

  /** Upserts are rolled back exactly when the session is struck. */
  lemma {:induction false} StrikesDiscard(w: World, s: Session, ops: seq<Operation>)
    ensures Upserts(Replay(w, s, ops).discarded) >= Upserts(s.discarded)
    ensures Upserts(Replay(w, s, ops).discarded) == Upserts(s.discarded) <==> !Struck(w, s, ops)
  {
    hide Struck, Upserts, Attempt, Replay;
    if ops == [] {
      NothingStruck(w, s);
    } else {
      var front, last := ops[..|ops| - 1], ops[|ops| - 1];
      assert front + [last] == ops;
      StrikesDiscard(w, s, front);
      ReplayLogs(w, s, front);
      ReplaySnoc(w, s, front, last);
      AttemptMoves(w, Replay(w, s, front), last);
      StruckSnoc(w, s, front, last);
    }
  }

  lemma {:induction false} ReplayConcat(w: World, s: Session, a: seq<Operation>, b: seq<Operation>)
    ensures Replay(w, s, a + b) == Replay(w, Replay(w, s, a), b)
    decreases |b|
  {
    if b == [] {
      assert a + b == a;
    } else {
      hide Attempt;
      var front, last := b[..|b| - 1], b[|b| - 1];
      assert (a + b)[..|a + b| - 1] == a + front && (a + b)[|a + b| - 1] == last;
      ReplayConcat(w, s, a, front);
    }
  }

  /** From s to t the session moved by operations alone. */
  ghost predicate Leads(w: World, s: Session, t: Session) {
    s.operations <= t.operations && t == Replay(w, s, t.operations[|s.operations|..])
  }

  lemma LeadsCompose(w: World, s: Session, t: Session, u: Session)
    requires Leads(w, s, t) && Leads(w, t, u)
    ensures Leads(w, s, u)
  {
    hide Replay;
    var a, b := t.operations[|s.operations|..], u.operations[|t.operations|..];
    ReplayConcat(w, s, a, b);
    assert u.operations[|s.operations|..] == a + b;
  }

  lemma StayLeads(w: World, s: Session)
    ensures Leads(w, s, s)
  {
    assert s.operations[|s.operations|..] == [];
  }

  lemma AttemptLeads(w: World, s: Session, op: Operation)
    ensures Leads(w, s, Attempt(w, s, op))
  {
    var t := Attempt(w, s, op);
    assert t.operations[|s.operations|..] == [op];
    assert Replay(w, s, [op]) == Attempt(w, Replay(w, s, [op][..0]), op);
    assert [op][..0] == [];
  }

  lemma RetryLeads(w: World, s: Stage, op: Operation)
    ensures Leads(w, s.session, WithRetry(w, s, op).session)
  {
    hide Leads, Attempt;
    var once := Attempt(w, s.session, op);
    AttemptLeads(w, s.session, op);
    AttemptLeads(w, once, op);
    LeadsCompose(w, s.session, once, Attempt(w, once, op));
  }

  lemma CommitLeads(w: World, s: Stage)
    ensures Leads(w, s.session, CommitProgress(w, s).session)
  {
    hide Leads, WithRetry;
    RetryLeads(w, s, Commit);
    StayLeads(w, s.session);
  }

  lemma LoggedLeads(w: World, s: Stage, id: RowId)
    ensures Leads(w, s.session, FailedAndLogged(w, s, id).session)
    ensures Leads(w, s.session, StoredAndLogged(w, s, id).session)
  {
    hide Leads, WithRetry;
    var stored := WithRetry(w, s, Insert(Upsert(id)));
    RetryLeads(w, Skipped(s, id), Insert(AiLog(id, false)));
    RetryLeads(w, s, Insert(Upsert(id)));
    RetryLeads(w, stored, Insert(AiLog(id, true)));
    LeadsCompose(w, s.session, stored.session, WithRetry(w, stored, Insert(AiLog(id, true))).session);
  }

  lemma TurnLeads(w: World, s: Stage, turn: Turn)
    ensures Leads(w, s.session, Take(w, s, turn).session)
  {
    hide Leads, WithRetry, FailedAndLogged, StoredAndLogged, CommitProgress;
    StayLeads(w, s.session);
    RetryLeads(w, s, Insert(Upsert(turn.id)));
    LoggedLeads(w, s, turn.id);
    if turn.Requested? {
      var called := Called(CommitProgress(w, s), [turn.id]);
      CommitLeads(w, s);
      LoggedLeads(w, called, turn.id);
      LeadsCompose(w, s.session, called.session, FailedAndLogged(w, called, turn.id).session);
      LeadsCompose(w, s.session, called.session, StoredAndLogged(w, called, turn.id).session);
    }
  }

  lemma {:induction false} TurnsLead(w: World, s: Stage, turns: seq<Turn>)
    ensures Leads(w, s.session, TakeAll(w, s, turns).session)
    decreases |turns|
  {
    hide Leads, Take;
    StayLeads(w, s.session);
    if turns != [] && !s.raised {
      var t := Take(w, s, turns[0]);
      TurnLeads(w, s, turns[0]);
      TurnsLead(w, t, turns[1..]);
      LeadsCompose(w, s.session, t.session, TakeAll(w, t, turns[1..]).session);
    }
  }

  lemma BatchLeads(w: World, s: Stage, batch: seq<RowId>)
    ensures Leads(w, s.session, NormalizeBatch(w, s, batch).session)
  {
    hide Leads, TakeAll, Prompted, CommitProgress, AnsweredTurns, PreparedTurns, RequestedTurns;
    var prepared, ids := TakeAll(w, s, PreparedTurns(batch)), Prompted(w, batch);
    var clean := CommitProgress(w, prepared);
    TurnsLead(w, s, PreparedTurns(batch));
    TurnsLead(w, prepared, RequestedTurns(ids));
    CommitLeads(w, prepared);
    TurnsLead(w, Called(clean, ids), AnsweredTurns(w, ids));
    LeadsCompose(w, s.session, prepared.session, TakeAll(w, prepared, RequestedTurns(ids)).session);
    LeadsCompose(w, s.session, prepared.session, clean.session);
    LeadsCompose(w, s.session, clean.session, TakeAll(w, Called(clean, ids), AnsweredTurns(w, ids)).session);
  }

  lemma {:induction false} BatchesLead(w: World, s: Stage, batches: seq<seq<RowId>>)
    ensures Leads(w, s.session, BatchTurns(w, s, batches).session)
    decreases |batches|
  {
    hide Leads, NormalizeBatch, CommitProgress;
    StayLeads(w, s.session);
    if batches != [] && !s.raised {
      var clean := CommitProgress(w, s);
      var done, next := NormalizeBatch(w, clean, batches[0]), BatchTurn(w, s, batches[0]);
      CommitLeads(w, s);
      BatchLeads(w, clean, batches[0]);
      CommitLeads(w, done);
      LeadsCompose(w, s.session, clean.session, done.session);
      LeadsCompose(w, s.session, done.session, CommitProgress(w, done).session);
      BatchesLead(w, next, batches[1..]);
      LeadsCompose(w, s.session, next.session, BatchTurns(w, next, batches[1..]).session);
    }
  }

  lemma StageLeads(w: World, gate: Option<Known>, session: Session, raws: seq<RawJob>)
    requires w.batchSize > 0
    ensures Leads(w, Gated(gate, session, raws), NormalizeSource(w, gate, session, raws).session)
  {
    hide Leads, TakeAll, BatchTurns, Chunked, Admitted, MappedTurns, Gated, Attempt;
    var ids, start := Admitted(gate, raws), Opened(gate, session, raws);
    var worked := Worked(w, start, ids);
    if w.hasClient {
      BatchesLead(w, start, Chunked(ids, w.batchSize));
    } else {
      TurnsLead(w, start, MappedTurns(ids));
    }
    AttemptLeads(w, worked.session, Commit);
    LeadsCompose(w, start.session, worked.session, Attempt(w, worked.session, Commit));
  }

  /** In a stage that returns, every counted job is in the database or was rolled back, no
      write is left uncommitted, and each OperationalError rolled back at most one batch:
      committed >= counted - batch size * errors. All counted jobs are kept exactly when no
      failed operation met an uncommitted upsert. */
  lemma CountedIsCommittedOrRolledBack(w: World, gate: Option<Known>, session: Session, raws: seq<RawJob>)
    requires w.batchSize > 0 && Upserts(session.pending) == 0
    requires !NormalizeSource(w, gate, session, raws).raised
    ensures var t := NormalizeSource(w, gate, session, raws);
            var kept := Upserts(t.session.committed) - Upserts(session.committed);
            var lost := Upserts(t.session.discarded) - Upserts(session.discarded);
            && t.result.normalized == kept + lost
            && t.session.pending == []
            && lost <= Room(w, gate, raws) * (t.session.faults - session.faults)
            && kept >= t.result.normalized - Room(w, gate, raws) * (t.session.faults - session.faults)
            && session.operations <= t.session.operations
            && (kept == t.result.normalized <==>
                !Struck(w, Gated(gate, session, raws), t.session.operations[|session.operations|..]))
  {
    hide UpsertedIds, TakeAll, BatchTurns, Chunked, Admitted, Worked, Room, GateWrites, Struck, Replay;
    var t := NormalizeSource(w, gate, session, raws);
    var start := Opened(gate, session, raws);
    StageLeads(w, gate, session, raws);
    StrikesDiscard(w, start.session, t.session.operations[|session.operations|..]);
    UpsertedIdsConcat(session.pending, GateWrites(raws));
    GateUpsertsNone(raws);
    WorkKeeps(w, gate, start, raws);
    var worked := Worked(w, start, Admitted(gate, raws));
    AttemptMoves(w, worked.session, Commit);
    ReportAddsUp(w, gate, session, raws);
    assert |Upserted(t.session) + multiset(t.result.errors)|
           == |Upserted(session) + multiset(Admitted(gate, raws))|;
    assert Upserts([]) == 0 by { NoWrites(); }
  }

  /** One failed commit between batches, and a completed stage without errors has counted a
      job the database does not hold: the second attempt commits an empty transaction. */
  lemma CompletedStageCanLoseAJob() returns (w: World, raws: seq<RawJob>, t: Stage)
    ensures w.batchSize > 0 && t == NormalizeSource(w, None, Session([], 0, [], [], []), raws)
    ensures !t.raised && !t.result.failed && t.result.normalized == 1
    ensures t.session.faults == 1 && t.session.committed == []
  {
    w := World((k: nat) => k == 1, (k: nat) => false, (k: nat) => false, (id: RowId) => true, (id: RowId) => NoPrompt,
               (ids: seq<RowId>) => Raised, (id: RowId) => true, true, true, 1);
    raws := [RawJob(0, None, None, None)];
    t := NormalizeSource(w, None, Session([], 0, [], [], []), raws);
    var start := Opened(None, Session([], 0, [], [], []), raws);
    assert Admitted(None, raws) == [0];
    assert Chunked([0], 1) == [[0]] by { assert [0][..1] == [0]; assert [0][1..] == []; assert Chunked([], 1) == []; }
    assert PreparedTurns([0]) == [Prepared(0)];
    var upserted := Take(w, start, Prepared(0));
    assert [Prepared(0)][1..] == [];
    assert TakeAll(w, start, [Prepared(0)]) == upserted;
    assert Prompted(w, [0]) == [] by { assert [0][1..] == []; }
    assert BatchTurn(w, start, [0]) == CommitProgress(w, upserted);
    assert [[0]][1..] == [];
    assert BatchTurns(w, start, [[0]]) == CommitProgress(w, upserted);
  }
}
