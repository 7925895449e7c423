/** What the report of a normalize stage says, and what it does not. */
module NormalizeReport {
  import opened Eligibility
  import opened Sequences
  import opened Wrappers
  import opened Normalize

  // ---------------------------------------------------------------------
  // The report adds up
  // ---------------------------------------------------------------------

  /** The raw jobs that a turn settles: one that goes on to the AI client is settled later. */
  function SettledBy(w: World, turn: Turn): multiset<RowId> {
    if turn.Prepared? && NeedsAi(w, turn.id) then multiset{} else multiset{turn.id}
  }

  function Settled(w: World, turns: seq<Turn>): multiset<RowId> {
    if turns == [] then multiset{}
    else SettledBy(w, turns[0]) + Settled(w, turns[1..])
  }

  function UpsertedBy(write: Write): multiset<RowId> {
    if write.Upsert? then multiset{write.rawJobId} else multiset{}
  }

  function UpsertedIds(writes: seq<Write>): multiset<RowId> {
    if writes == [] then multiset{} else UpsertedBy(writes[0]) + UpsertedIds(writes[1..])
  }

  lemma UpsertedCons(write: Write, writes: seq<Write>)
    ensures UpsertedIds([write] + writes) == UpsertedBy(write) + UpsertedIds(writes)
  {
    assert ([write] + writes)[1..] == writes;
  }

  lemma SumIsAssociative(a: multiset<RowId>, b: multiset<RowId>, c: multiset<RowId>)
    ensures (a + b) + c == a + (b + c)
  {
  }

  lemma NoWrites()
    ensures UpsertedIds([]) == multiset{}
  {
  }

  lemma {:induction false} UpsertedIdsConcat(a: seq<Write>, b: seq<Write>)
    ensures UpsertedIds(a + b) == UpsertedIds(a) + UpsertedIds(b)
  {
    hide UpsertedIds, UpsertedBy;
    if a == [] {
      NoWrites();
      assert a + b == b;
    } else {
      var first, rest := a[0], a[1..];
      UpsertedCons(first, rest);
      UpsertedCons(first, rest + b);
      UpsertedIdsConcat(rest, b);
      SumIsAssociative(UpsertedBy(first), UpsertedIds(rest), UpsertedIds(b));
      assert a == [first] + rest && a + b == [first] + (rest + b);
    }
  }

  function IdOf(op: Operation): multiset<RowId> {
    if op.Insert? then UpsertedBy(op.write) else multiset{}
  }

  /** The raw jobs upserted so far, kept or not. */
  function Upserted(s: Session): multiset<RowId> {
    UpsertedIds(s.committed) + UpsertedIds(s.pending) + UpsertedIds(s.discarded)
  }

  /** The raw jobs accounted for, one way or the other. */
  function Accounted(s: Stage): multiset<RowId> {
    Upserted(s.session) + multiset(s.result.errors)
  }

  /** From s to t exactly the `settled` jobs were accounted for, each counted or in error. */
  ghost predicate AddsUp(s: Stage, t: Stage, settled: multiset<RowId>) {
    && t.result.fetched == s.result.fetched && t.result.parsed == s.result.parsed
    && t.result.normalized - t.result.persisted == s.result.normalized - s.result.persisted
    && t.result.skipped - |t.result.errors| == s.result.skipped - |s.result.errors|
    && (!t.raised ==>
          && t.result.normalized + |t.result.errors| == s.result.normalized + |s.result.errors| + |settled|
          && Accounted(t) == Accounted(s) + settled)
  }

  /** The three ways an operation moves writes. */
  lemma Rearranged(c: multiset<RowId>, p: multiset<RowId>, d: multiset<RowId>, x: multiset<RowId>)
    ensures c + multiset{} + (d + p) == c + p + d
    ensures (c + p) + multiset{} + d == c + p + d
    ensures c + (p + x) + d == c + p + d + x
    ensures c + p + d + multiset{} == c + p + d
  {
  }

  lemma UpsertedSnoc(writes: seq<Write>, write: Write)
    ensures UpsertedIds(writes + [write]) == UpsertedIds(writes) + UpsertedBy(write)
  {
    hide UpsertedBy;
    UpsertedIdsConcat(writes, [write]);
    UpsertedCons(write, []);
    NoWrites();
    assert [write] + [] == [write];
    assert UpsertedBy(write) + multiset{} == UpsertedBy(write);
  }

  lemma AttemptUpserts(w: World, s: Session, op: Operation)
    ensures Upserted(Attempt(w, s, op)) == Upserted(s) + (if w.fails(|s.operations|) then multiset{} else IdOf(op))
  {
    hide UpsertedIds, UpsertedBy;
    var c, p, d := UpsertedIds(s.committed), UpsertedIds(s.pending), UpsertedIds(s.discarded);
    NoWrites();
    UpsertedIdsConcat(s.discarded, s.pending);
    UpsertedIdsConcat(s.committed, s.pending);
    Rearranged(c, p, d, IdOf(op));
    if op.Insert? {
      UpsertedSnoc(s.pending, op.write);
    }
  }

  lemma RetryReports(w: World, s: Stage, op: Operation)
    ensures WithRetry(w, s, op).result == s.result && WithRetry(w, s, op).calls == s.calls
  {
  }

  lemma RetryUpserts(w: World, s: Stage, op: Operation)
    requires !s.raised
    ensures var t := WithRetry(w, s, op);
            && t.result == s.result && t.calls == s.calls
            && Upserted(t.session) == Upserted(s.session) + (if t.raised then multiset{} else IdOf(op))
  {
    hide Upserted, Attempt, IdOf;
    AttemptUpserts(w, s.session, op);
    AttemptUpserts(w, Attempt(w, s.session, op), op);
  }

  lemma SkippedAccounts(s: Stage, id: RowId)
    ensures Accounted(Skipped(s, id)) == Accounted(s) + multiset{id}
  {
    assert multiset(s.result.errors + [id]) == multiset(s.result.errors) + multiset{id};
  }

  lemma CountAddsUp(s: Stage, t: Stage, id: RowId)
    requires t.result == s.result && Upserted(t.session) == Upserted(s.session) + multiset{id}
    ensures AddsUp(s, Counted(t), multiset{id})
  {
    hide Upserted;
    assert (Upserted(s.session) + multiset{id}) + multiset(s.result.errors)
           == (Upserted(s.session) + multiset(s.result.errors)) + multiset{id};
  }

  lemma SkipAddsUp(s: Stage, t: Stage, id: RowId)
    requires t.result == s.result && Upserted(t.session) == Upserted(s.session)
    ensures AddsUp(s, Skipped(t, id), multiset{id})
  {
    hide Upserted;
    SkippedAccounts(t, id);
  }

  /** Only the session moves, and upserts nothing; or the stage raises. */
  lemma StayAddsUp(s: Stage, t: Stage, m: multiset<RowId>)
    requires t.result == s.result
    requires t.raised || (m == multiset{} && Upserted(t.session) == Upserted(s.session))
    ensures AddsUp(s, t, m)
  {
    hide Upserted;
    assert Accounted(s) + multiset{} == Accounted(s);
  }

  lemma NothingAdded(m: multiset<RowId>)
    ensures m + multiset{} == m
  {
  }

  lemma LoggedAddsUp(w: World, s: Stage, id: RowId)
    requires !s.raised
    ensures AddsUp(s, FailedAndLogged(w, s, id), multiset{id}) && AddsUp(s, StoredAndLogged(w, s, id), multiset{id})
  {
    FailedAddsUp(w, s, id);
    StoredAddsUp(w, s, id);
  }

  lemma FailedAddsUp(w: World, s: Stage, id: RowId)
    requires !s.raised
    ensures AddsUp(s, FailedAndLogged(w, s, id), multiset{id})
  {
    hide WithRetry, Upserted, AddsUp;
    var skipped, log := Skipped(s, id), Insert(AiLog(id, false));
    SkipAddsUp(s, s, id);
    RetryUpserts(w, skipped, log);
    NothingAdded(Upserted(s.session));
    StayAddsUp(skipped, WithRetry(w, skipped, log), multiset{});
    AddsUpComposes(s, skipped, WithRetry(w, skipped, log), multiset{id}, multiset{});
    NothingAdded(multiset{id});
  }

  lemma StoredAddsUp(w: World, s: Stage, id: RowId)
    requires !s.raised
    ensures AddsUp(s, StoredAndLogged(w, s, id), multiset{id})
  {
    hide WithRetry, Upserted, AddsUp;
    var stored := WithRetry(w, s, Insert(Upsert(id)));
    RetryUpserts(w, s, Insert(Upsert(id)));
    if stored.raised {
      StayAddsUp(s, stored, multiset{id});
    } else {
      var logged := WithRetry(w, stored, Insert(AiLog(id, true)));
      RetryUpserts(w, stored, Insert(AiLog(id, true)));
      NothingAdded(Upserted(stored.session));
      if logged.raised {
        StayAddsUp(s, logged, multiset{id});
      } else {
        CountAddsUp(s, logged, id);
      }
    }
  }

  lemma AddsUpComposes(s: Stage, t: Stage, u: Stage, m: multiset<RowId>, n: multiset<RowId>)
    requires AddsUp(s, t, m) && AddsUp(t, u, n) && !t.raised
    ensures AddsUp(s, u, m + n)
  {
    hide Accounted;
    assert !u.raised ==> Accounted(u) == Accounted(s) + (m + n);
  }

  /** A stage that raised promises nothing about the jobs it did not reach. */
  lemma RaisedAddsUp(s: Stage, t: Stage, m: multiset<RowId>, n: multiset<RowId>)
    requires AddsUp(s, t, m) && t.raised
    ensures AddsUp(s, t, n)
  {
  }

  lemma CommitAddsUp(w: World, s: Stage)
    requires !s.raised
    ensures AddsUp(s, CommitProgress(w, s), multiset{})
  {
    hide WithRetry, Upserted;
    RetryUpserts(w, s, Commit);
  }

  lemma MappedAddsUp(w: World, s: Stage, id: RowId)
    requires !s.raised
    ensures AddsUp(s, Take(w, s, Mapped(id)), multiset{id})
    ensures AddsUp(s, Take(w, s, Prepared(id)), SettledBy(w, Prepared(id)))
  {
    hide WithRetry, Upserted, AddsUp;
    var stored := WithRetry(w, s, Insert(Upsert(id)));
    RetryUpserts(w, s, Insert(Upsert(id)));
    NothingAdded(Upserted(s.session));
    SkipAddsUp(s, s, id);
    StayAddsUp(s, s, multiset{});
    StayAddsUp(s, s.(raised := true), multiset{id});
    if stored.raised {
      SkipAddsUp(s, stored.(raised := false), id);
      StayAddsUp(s, stored, multiset{id});
    } else {
      CountAddsUp(s, stored, id);
    }
  }

  lemma RequestedAddsUp(w: World, s: Stage, id: RowId)
    requires !s.raised
    ensures AddsUp(s, Take(w, s, Requested(id)), multiset{id})
  {
    hide CommitProgress, Accounted, AddsUp, FailedAndLogged, StoredAndLogged;
    var clean := CommitProgress(w, s);
    CommitAddsUp(w, s);
    if clean.raised {
      RaisedAddsUp(s, clean, multiset{}, multiset{id});
    } else {
      CallAddsUp(clean, [id]);
      LoggedAddsUp(w, Called(clean, [id]), id);
      var t := Take(w, s, Requested(id));
      AddsUpComposes(clean, Called(clean, [id]), t, multiset{}, multiset{id});
      AddsUpComposes(s, clean, t, multiset{}, multiset{} + multiset{id});
      assert multiset{} + (multiset{} + multiset{id}) == multiset{id};
    }
  }

  lemma CallAddsUp(s: Stage, ids: seq<RowId>)
    ensures AddsUp(s, Called(s, ids), multiset{})
  {
  }

  lemma TurnAddsUp(w: World, s: Stage, turn: Turn)
    requires !s.raised
    ensures AddsUp(s, Take(w, s, turn), SettledBy(w, turn))
  {
    hide AddsUp, Accounted, WithRetry, CommitProgress, FailedAndLogged, StoredAndLogged;
    match turn
    case Mapped(id) => MappedAddsUp(w, s, id);
    case Prepared(id) => MappedAddsUp(w, s, id);
    case Answered(id, _) => LoggedAddsUp(w, s, id);
    case Requested(id) => RequestedAddsUp(w, s, id);
  }

  lemma {:induction false} TurnsAddUp(w: World, s: Stage, turns: seq<Turn>)
    requires !s.raised
    ensures AddsUp(s, TakeAll(w, s, turns), Settled(w, turns))
    decreases |turns|
  {
    hide Take, Accounted;
    if turns != [] {
      hide AddsUp, SettledBy;
      var t := Take(w, s, turns[0]);
      var rest := Settled(w, turns[1..]);
      TurnAddsUp(w, s, turns[0]);
      if t.raised {
        RaisedAddsUp(s, t, SettledBy(w, turns[0]), Settled(w, turns));
      } else {
        TurnsAddUp(w, t, turns[1..]);
        AddsUpComposes(s, t, TakeAll(w, t, turns[1..]), SettledBy(w, turns[0]), rest);
      }
    }
  }

  function IdsOf(turns: seq<Turn>): seq<RowId> {
    seq(|turns|, i requires 0 <= i < |turns| => turns[i].id)
  }

  lemma {:induction false} OthersSettle(w: World, turns: seq<Turn>)
    requires forall t | t in turns :: !t.Prepared?
    ensures Settled(w, turns) == multiset(IdsOf(turns))
  {
    if turns != [] {
      OthersSettle(w, turns[1..]);
      assert IdsOf(turns) == [turns[0].id] + IdsOf(turns[1..]);
    }
  }

  /** What of a prepared job is left for the AI client to settle. */
  function NeedOf(w: World, id: RowId): multiset<RowId> {
    if NeedsAi(w, id) then multiset{id} else multiset{}
  }

  lemma FirstPrepared(w: World, ids: seq<RowId>)
    requires ids != []
    ensures Settled(w, PreparedTurns(ids)) == SettledBy(w, Prepared(ids[0])) + Settled(w, PreparedTurns(ids[1..]))
    ensures multiset(Prompted(w, ids)) == NeedOf(w, ids[0]) + multiset(Prompted(w, ids[1..]))
    ensures SettledBy(w, Prepared(ids[0])) + NeedOf(w, ids[0]) == multiset{ids[0]}
  {
    hide NeedsAi;
    assert PreparedTurns(ids)[1..] == PreparedTurns(ids[1..]);
  }

  lemma FirstOf(ids: seq<RowId>)
    requires ids != []
    ensures multiset(ids) == multiset{ids[0]} + multiset(ids[1..])
  {
    assert ids == [ids[0]] + ids[1..];
  }

  lemma SumOfParts(a: multiset<RowId>, b: multiset<RowId>, c: multiset<RowId>, d: multiset<RowId>)
    ensures (a + b) + (c + d) == (a + c) + (b + d)
  {
  }

  lemma NothingPrepared(w: World)
    ensures Settled(w, PreparedTurns([])) + multiset(Prompted(w, [])) == multiset([])
  {
  }

  lemma {:induction false} PreparedSettle(w: World, ids: seq<RowId>)
    ensures Settled(w, PreparedTurns(ids)) + multiset(Prompted(w, ids)) == multiset(ids)
  {
    hide Settled, SettledBy, NeedOf, Prompted, PreparedTurns;
    if ids == [] {
      NothingPrepared(w);
    } else {
      var rest := ids[1..];
      PreparedSettle(w, rest);
      FirstPrepared(w, ids);
      FirstOf(ids);
      SumOfParts(SettledBy(w, Prepared(ids[0])), Settled(w, PreparedTurns(rest)),
                 NeedOf(w, ids[0]), multiset(Prompted(w, rest)));
    }
  }

  lemma TurnsSettle(w: World, ids: seq<RowId>)
    ensures Settled(w, MappedTurns(ids)) == multiset(ids)
    ensures Settled(w, RequestedTurns(ids)) == multiset(ids)
  {
    OthersSettle(w, MappedTurns(ids));
    OthersSettle(w, RequestedTurns(ids));
    assert IdsOf(MappedTurns(ids)) == IdsOf(RequestedTurns(ids)) == ids;
  }

  /** The order contract makes every batch answer settle each requested job once. */
  lemma AnswerSettlesEach(w: World, ids: seq<RowId>)
    ensures Settled(w, AnsweredTurns(w, ids)) == multiset(ids)
  {
    OthersSettle(w, AnsweredTurns(w, ids));
    assert IdsOf(FailedTurns(ids)) == ids;
    match ValidateBatchOutput(ids, w.answer(ids))
    case Failure(_) =>
    case Success(items) => assert IdsOf(ItemTurns(items)) == Ids(items);
  }

  lemma CallThenAnswersAddUp(w: World, s: Stage, ids: seq<RowId>)
    requires !s.raised
    ensures AddsUp(s, BatchCall(w, s, ids), multiset(ids))
  {
    hide CommitProgress, Accounted, AddsUp, TakeAll, AnsweredTurns, Settled;
    var clean := CommitProgress(w, s);
    CommitAddsUp(w, s);
    if clean.raised {
      RaisedAddsUp(s, clean, multiset{}, multiset(ids));
    } else {
      var called, t := Called(clean, ids), BatchCall(w, s, ids);
      CallAddsUp(clean, ids);
      AnswerSettlesEach(w, ids);
      TurnsAddUp(w, called, AnsweredTurns(w, ids));
      AddsUpComposes(clean, called, t, multiset{}, multiset(ids));
      AddsUpComposes(s, clean, t, multiset{}, multiset{} + multiset(ids));
      assert multiset{} + (multiset{} + multiset(ids)) == multiset(ids);
    }
  }

  lemma BatchAddsUp(w: World, s: Stage, batch: seq<RowId>)
    requires !s.raised
    ensures AddsUp(s, NormalizeBatch(w, s, batch), multiset(batch))
  {
    hide TakeAll, Prompted, PreparedTurns, RequestedTurns, Settled, BatchCall, AddsUp, Accounted;
    var prepared, ids, t := TakeAll(w, s, PreparedTurns(batch)), Prompted(w, batch), NormalizeBatch(w, s, batch);
    var settled := Settled(w, PreparedTurns(batch));
    TurnsAddUp(w, s, PreparedTurns(batch));
    PreparedSettle(w, batch);
    if prepared.raised {
      RaisedAddsUp(s, prepared, settled, multiset(batch));
    } else if ids != [] {
      TurnsSettle(w, ids);
      TurnsAddUp(w, prepared, RequestedTurns(ids));
      CallThenAnswersAddUp(w, prepared, ids);
      AddsUpComposes(s, prepared, t, settled, multiset(ids));
    } else {
      assert settled + multiset(ids) == settled;
    }
  }

  lemma BatchTurnAddsUp(w: World, s: Stage, batch: seq<RowId>)
    requires !s.raised
    ensures AddsUp(s, BatchTurn(w, s, batch), multiset(batch))
  {
    hide NormalizeBatch, CommitProgress, AddsUp, Accounted;
    var clean, m := CommitProgress(w, s), multiset(batch);
    CommitAddsUp(w, s);
    if clean.raised {
      RaisedAddsUp(s, clean, multiset{}, m);
    } else {
      var done := NormalizeBatch(w, clean, batch);
      BatchAddsUp(w, clean, batch);
      AddsUpComposes(s, clean, done, multiset{}, m);
      assert multiset{} + m == m;
      if !done.raised {
        CommitAddsUp(w, done);
        AddsUpComposes(s, done, CommitProgress(w, done), m, multiset{});
        assert m + multiset{} == m;
      }
    }
  }

  lemma {:induction false} BatchesAddUp(w: World, s: Stage, batches: seq<seq<RowId>>)
    requires !s.raised
    ensures AddsUp(s, BatchTurns(w, s, batches), multiset(Flatten(batches)))
    decreases |batches|
  {
    hide BatchTurn, Accounted;
    if batches != [] {
      hide AddsUp;
      var next, m, rest := BatchTurn(w, s, batches[0]), multiset(batches[0]), multiset(Flatten(batches[1..]));
      FlattenHead(batches);
      assert multiset(Flatten(batches)) == m + rest;
      BatchTurnAddsUp(w, s, batches[0]);
      if next.raised {
        RaisedAddsUp(s, next, m, m + rest);
      } else {
        BatchesAddUp(w, next, batches[1..]);
        AddsUpComposes(s, next, BatchTurns(w, next, batches[1..]), m, rest);
      }
    }
  }

  lemma NoChunks(size: int)
    requires size > 0
    ensures Chunked([], size) == [] && Flatten<RowId>([]) == [] && ChunkCount(0, size) == 0
  {
  }

  lemma FirstChunk(items: seq<RowId>, size: int)
    requires size > 0 && items != []
    ensures var n := if size < |items| then size else |items|;
            && Chunked(items, size) == [items[..n]] + Chunked(items[n..], size)
            && Flatten(Chunked(items, size)) == items[..n] + Flatten(Chunked(items[n..], size))
  {
    hide Flatten;
    FlattenHead(Chunked(items, size));
  }

  /** The batches are the jobs in order, none longer than the size and none empty, and as
      many as announced. */
  lemma {:induction false} ChunksPartition(items: seq<RowId>, size: int)
    requires size > 0
    ensures var batches := Chunked(items, size);
            && Flatten(batches) == items
            && (forall b | b in batches :: 1 <= |b| <= size)
            && |batches| == ChunkCount(|items|, size)
    decreases |items|
  {
    hide Chunked, ChunkCount, Flatten;
    NoChunks(size);
    if items != [] {
      var n := if size < |items| then size else |items|;
      ChunksPartition(items[n..], size);
      FirstChunk(items, size);
      OneMoreChunk(|items|, size);
      assert items == items[..n] + items[n..];
    }
  }

  lemma QuotientIs(x: int, d: int, q: int)
    requires d > 0 && q * d <= x < q * d + d
    ensures x / d == q
  {
    var p := x / d;
    if p < q {
      Multiples(p + 1, q, d);
    } else if q < p {
      Multiples(q + 1, p, d);
    }
  }

  lemma Multiples(a: int, b: int, d: int)
    requires a <= b && d >= 0
    ensures a * d <= b * d && (a + 1) * d == a * d + d
  {
  }

  lemma OneMoreChunk(total: int, size: int)
    requires size > 0 && total > 0
    ensures ChunkCount(total, size) == 1 + ChunkCount(if size < total then total - size else 0, size)
  {
    if size < total {
      var x := total - 1;
      var q := x / size;
      assert q * size <= x < q * size + size;
      assert (q + 1) * size == q * size + size;
      QuotientIs(x + size, size, q + 1);
    } else {
      QuotientIs(total + size - 1, size, 1);
    }
  }

  lemma {:induction false} SelectedAreFew(raws: seq<RawJob>, decisions: seq<Decision>)
    ensures |Selected(raws, decisions)| <= |raws|
  {
    if raws != [] && decisions != [] {
      SelectedAreFew(raws[1..], decisions[1..]);
    }
  }

  /** Whatever the mapper, the AI client and the database do, the report of a stage that
      returns adds up, on the mapper path, the batch path and the single-request path; and
      every admitted job was either upserted or is in error, once. */
  lemma ReportAddsUp(w: World, gate: Option<Known>, session: Session, raws: seq<RawJob>)
    requires w.batchSize > 0
    requires !NormalizeSource(w, gate, session, raws).raised
    ensures var t := NormalizeSource(w, gate, session, raws);
            var r, ineligible := t.result, |raws| - |Admitted(gate, raws)|;
            && r.fetched == |raws| == r.normalized + r.skipped
            && r.persisted == r.parsed == r.normalized
            && 0 <= ineligible && |r.errors| == r.skipped - ineligible
            && (r.failed <==> r.errors != [])
            && Upserted(t.session) + multiset(r.errors) == Upserted(session) + multiset(Admitted(gate, raws))
  {
    hide TakeAll, BatchTurns, Admitted, Chunked, MappedTurns, Settled, Upserted, Attempt, Gated;
    var ids, start := Admitted(gate, raws), Opened(gate, session, raws);
    AdmittedAreFew(gate, raws);
    GateUpsertsNothing(gate, session, raws);
    WorkAddsUp(w, start, ids);
    hide Worked;
    var worked := Worked(w, start, ids);
    AttemptUpserts(w, worked.session, Commit);
    var t := NormalizeSource(w, gate, session, raws);
    assert Accounted(start) == Upserted(session) by {
      assert multiset(start.result.errors) == multiset{};
    }
    assert Accounted(t) == Accounted(worked) by {
      assert IdOf(Commit) == multiset{};
      assert t.result.errors == worked.result.errors;
    }
  }

  lemma WorkAddsUp(w: World, s: Stage, ids: seq<RowId>)
    requires w.batchSize > 0 && !s.raised
    ensures AddsUp(s, Worked(w, s, ids), multiset(ids))
  {
    hide TakeAll, BatchTurns, Chunked, MappedTurns, Settled, AddsUp;
    if w.hasClient {
      ChunksPartition(ids, w.batchSize);
      BatchesAddUp(w, s, Chunked(ids, w.batchSize));
    } else {
      TurnsSettle(w, ids);
      TurnsAddUp(w, s, MappedTurns(ids));
    }
  }

  lemma GateUpsertsNothing(gate: Option<Known>, session: Session, raws: seq<RawJob>)
    ensures Upserted(Gated(gate, session, raws)) == Upserted(session)
  {
    UpsertedIdsConcat(session.pending, GateWrites(raws));
    GateUpsertsNone(raws);
  }

  lemma {:induction false} GateUpsertsNone(raws: seq<RawJob>)
    ensures UpsertedIds(GateWrites(raws)) == multiset{}
  {
    if raws != [] {
      GateUpsertsNone(raws[1..]);
      assert GateWrites(raws)[1..] == GateWrites(raws[1..]);
    }
  }

  lemma AdmittedAreFew(gate: Option<Known>, raws: seq<RawJob>)
    ensures |Admitted(gate, raws)| <= |raws|
  {
    if gate.Some? {
      SelectedAreFew(raws, Decisions(gate.value, raws));
    }
  }

  // ---------------------------------------------------------------------
  // Database errors never show on the AI path
  // ---------------------------------------------------------------------

  /** The same mapper, client and settings over another database. */
  ghost predicate DifferInDatabase(v: World, w: World) {
    v == w.(fails := v.fails, reading := v.reading, orphaned := v.orphaned)
  }

  lemma TurnAgrees(v: World, w: World, s: Stage, t: Stage, turn: Turn)
    requires DifferInDatabase(v, w) && s.result == t.result && !turn.Mapped?
    requires !Take(v, s, turn).raised && !Take(w, t, turn).raised
    ensures Take(v, s, turn).result == Take(w, t, turn).result
  {
    TurnReports(v, s, turn);
    TurnReports(w, t, turn);
  }

  /** What a turn of the AI path reports does not depend on the session. */
  lemma TurnReports(w: World, s: Stage, turn: Turn)
    requires !turn.Mapped? && !Take(w, s, turn).raised
    ensures var r := Take(w, s, turn).result;
            match turn
            case Prepared(id) =>
              r == if !w.maps(id) then Skipped(s, id).result
                   else if w.prompt(id).NoPrompt? then Counted(s).result else s.result
            case Answered(id, normalized) => r == (if normalized then Counted(s) else Skipped(s, id)).result
            case Requested(id) => r == (if w.single(id) then Counted(s) else Skipped(s, id)).result
            case Mapped(_) => true
  {
    hide WithRetry;
    RetryReports(w, s, Insert(Upsert(turn.id)));
    LoggedReports(w, s, turn.id);
    if turn.Requested? {
      RetryReports(w, s, Commit);
      LoggedReports(w, Called(CommitProgress(w, s), [turn.id]), turn.id);
    }
  }

  lemma LoggedReports(w: World, s: Stage, id: RowId)
    ensures FailedAndLogged(w, s, id).result == Skipped(s, id).result
    ensures !StoredAndLogged(w, s, id).raised ==> StoredAndLogged(w, s, id).result == Counted(s).result
  {
    hide WithRetry;
    RetryReports(w, Skipped(s, id), Insert(AiLog(id, false)));
    RetryReports(w, s, Insert(Upsert(id)));
    RetryReports(w, WithRetry(w, s, Insert(Upsert(id))), Insert(AiLog(id, true)));
  }

  lemma {:induction false} TurnsAgree(v: World, w: World, s: Stage, t: Stage, turns: seq<Turn>)
    requires DifferInDatabase(v, w) && s.result == t.result
    requires forall turn | turn in turns :: !turn.Mapped?
    requires !TakeAll(v, s, turns).raised && !TakeAll(w, t, turns).raised
    ensures TakeAll(v, s, turns).result == TakeAll(w, t, turns).result
    decreases |turns|
  {
    hide Take, DifferInDatabase;
    if turns != [] {
      TurnAgrees(v, w, s, t, turns[0]);
      TurnsAgree(v, w, Take(v, s, turns[0]), Take(w, t, turns[0]), turns[1..]);
    }
  }

  lemma BatchAgrees(v: World, w: World, s: Stage, t: Stage, batch: seq<RowId>)
    requires DifferInDatabase(v, w) && s.result == t.result
    requires !NormalizeBatch(v, s, batch).raised && !NormalizeBatch(w, t, batch).raised
    ensures NormalizeBatch(v, s, batch).result == NormalizeBatch(w, t, batch).result
  {
    hide TakeAll, Prompted, WithRetry;
    PromptsAgree(v, w, batch);
    var ids := Prompted(v, batch);
    var a, b := TakeAll(v, s, PreparedTurns(batch)), TakeAll(w, t, PreparedTurns(batch));
    TurnsAgree(v, w, s, t, PreparedTurns(batch));
    RetryReports(v, a, Commit);
    RetryReports(w, b, Commit);
    if ids != [] {
      if v.hasBatchCall {
        TurnsAgree(v, w, Called(CommitProgress(v, a), ids), Called(CommitProgress(w, b), ids), AnsweredTurns(v, ids));
      } else {
        TurnsAgree(v, w, a, b, RequestedTurns(ids));
      }
    }
  }

  lemma {:induction false} PromptsAgree(v: World, w: World, ids: seq<RowId>)
    requires DifferInDatabase(v, w)
    ensures Prompted(v, ids) == Prompted(w, ids)
  {
    if ids != [] {
      PromptsAgree(v, w, ids[1..]);
    }
  }

  lemma {:induction false} BatchesAgree(v: World, w: World, s: Stage, t: Stage, batches: seq<seq<RowId>>)
    requires DifferInDatabase(v, w) && s.result == t.result
    requires !BatchTurns(v, s, batches).raised && !BatchTurns(w, t, batches).raised
    ensures BatchTurns(v, s, batches).result == BatchTurns(w, t, batches).result
    decreases |batches|
  {
    hide NormalizeBatch, WithRetry, DifferInDatabase;
    if batches != [] {
      var a, b := CommitProgress(v, s), CommitProgress(w, t);
      RetryReports(v, s, Commit);
      RetryReports(w, t, Commit);
      BatchAgrees(v, w, a, b, batches[0]);
      RetryReports(v, NormalizeBatch(v, a, batches[0]), Commit);
      RetryReports(w, NormalizeBatch(w, b, batches[0]), Commit);
      BatchesAgree(v, w, BatchTurn(v, s, batches[0]), BatchTurn(w, t, batches[0]), batches[1..]);
    }
  }

  /** On the AI path two stages that return report the same, whatever their databases did:
      counts, errors and status tell nothing of rolled-back work. */
  lemma ReportHidesRollbacks(v: World, w: World, gate: Option<Known>, s: Session, t: Session, raws: seq<RawJob>)
    requires w.batchSize > 0 && w.hasClient && DifferInDatabase(v, w)
    requires !NormalizeSource(v, gate, s, raws).raised && !NormalizeSource(w, gate, t, raws).raised
    ensures NormalizeSource(v, gate, s, raws).result == NormalizeSource(w, gate, t, raws).result
  {
    hide BatchTurns, Chunked, Admitted;
    BatchesAgree(v, w, Opened(gate, s, raws), Opened(gate, t, raws),
                 Chunked(Admitted(gate, raws), w.batchSize));
  }
}
