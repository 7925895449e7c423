/** The normalize stage of one source (src/jobs/pipeline.py) and its accounting, over a
    database session whose every operation may end in an OperationalError. A raw job is
    known by its primary key. */
module Normalize {
  import opened Eligibility
  import opened Wrappers

  // ---------------------------------------------------------------------
  // The session
  // ---------------------------------------------------------------------

  datatype Write = Upsert(rawJobId: RowId) | AiLog(rawJobId: RowId, success: bool) | GateDecision(rawJobId: RowId)

  datatype Operation = Insert(write: Write) | Commit

  /** `operations` are those sent to the database, whether they succeeded or not; `faults`
      counts those that ended in an OperationalError; `discarded` holds the writes that were
      rolled back. */
  datatype Session = Session(operations: seq<Operation>, faults: nat, committed: seq<Write>, pending: seq<Write>,
                             discarded: seq<Write>)

  datatype Prompt = HasPrompt | NoPrompt | Unsupported

  datatype Item = Item(id: RowId, normalized: bool)

  /** What the client makes of a batch request: an exception, or an output still to be
      validated, with the items that break the source policy. */
  datatype Answer = Raised | Output(items: seq<Item>, violating: set<RowId>)

  /** Everything the stage does not decide: which database operations fail, whether a read
      has start a transaction, what the mapper does and what the AI client answers. A stage
      without a client takes the mapper's result; one without a batch call asks one by one. */
  datatype World = World(
    fails: nat -> bool, reading: nat -> bool, orphaned: nat -> bool, maps: RowId -> bool, prompt: RowId -> Prompt,
    answer: seq<RowId> -> Answer, single: RowId -> bool, hasClient: bool, hasBatchCall: bool, batchSize: int)

  datatype SourceResult = SourceResult(fetched: nat, parsed: nat, normalized: nat, persisted: nat, skipped: int,
                                       errors: seq<RowId>, failed: bool)

  /** An outbound AI call, with the writes that were uncommitted when it was made. */
  datatype AiCall = AiCall(ids: seq<RowId>, uncommitted: seq<Write>)

  /** `raised` while an exception is on its way out. */
  datatype Stage = Stage(session: Session, result: SourceResult, calls: seq<AiCall>, raised: bool)

  /** One operation, the n-th of the session, rolled back when the database fails it. */
  function Attempt(w: World, s: Session, op: Operation): Session {
    var t := s.(operations := s.operations + [op]);
    if w.fails(|s.operations|) then RolledBack(t.(faults := s.faults + 1))
    else
      match op
      case Insert(write) => t.(pending := s.pending + [write])
      case Commit => t.(committed := s.committed + s.pending, pending := [])
  }

  function RolledBack(s: Session): Session {
    s.(pending := [], discarded := s.discarded + s.pending)
  }

  /** The log entry of a stored job whose row a rollback has taken away breaks its foreign
      key, which is an error that is not retried. */
  predicate Refused(w: World, s: Session, op: Operation) {
    op.Insert? && op.write.AiLog? && op.write.success && w.orphaned(|s.operations|)
  }

  /** Two attempts; the second failure is raised. */
  function WithRetry(w: World, s: Stage, op: Operation): Stage {
    var once := s.(session := Attempt(w, s.session, op));
    if !w.fails(|s.session.operations|) then once
    else if Refused(w, once.session, op) then once.(raised := true)
    else once.(session := Attempt(w, once.session, op), raised := w.fails(|once.session.operations|))
  }

  function CommitProgress(w: World, s: Stage): Stage {
    if s.session.pending == [] && !w.reading(|s.session.operations|) then s else WithRetry(w, s, Commit)
  }

  // ---------------------------------------------------------------------
  // One raw job
  // ---------------------------------------------------------------------

  function Skipped(s: Stage, id: RowId): Stage {
    s.(result := s.result.(errors := s.result.errors + [id], skipped := s.result.skipped + 1))
  }

  function Counted(s: Stage): Stage {
    s.(result := s.result.(normalized := s.result.normalized + 1, persisted := s.result.persisted + 1))
  }

  function Called(s: Stage, ids: seq<RowId>): Stage {
    s.(calls := s.calls + [AiCall(ids, s.session.pending)])
  }

  function FailedAndLogged(w: World, s: Stage, id: RowId): Stage {
    WithRetry(w, Skipped(s, id), Insert(AiLog(id, false)))
  }

  function StoredAndLogged(w: World, s: Stage, id: RowId): Stage {
    var stored := WithRetry(w, s, Insert(Upsert(id)));
    if stored.raised then stored
    else
      var logged := WithRetry(w, stored, Insert(AiLog(id, true)));
      if logged.raised then logged else Counted(logged)
  }

  /** The turns of the stage's loops. */
  datatype Turn =
    | Mapped(id: RowId)
    | Prepared(id: RowId)
    | Answered(id: RowId, normalized: bool)
    | Requested(id: RowId)

  function Take(w: World, s: Stage, turn: Turn): Stage {
    match turn
    case Mapped(id) =>
      if !w.maps(id) then Skipped(s, id)
      else
        var stored := WithRetry(w, s, Insert(Upsert(id)));
        if stored.raised then Skipped(stored.(raised := false), id) else Counted(stored)
    case Prepared(id) =>
      if !w.maps(id) then Skipped(s, id)
      else if w.prompt(id).Unsupported? then s.(raised := true)
      else if w.prompt(id).HasPrompt? then s
      else
        var stored := WithRetry(w, s, Insert(Upsert(id)));
        if stored.raised then stored else Counted(stored)
    case Answered(id, normalized) =>
      if normalized then StoredAndLogged(w, s, id) else FailedAndLogged(w, s, id)
    case Requested(id) =>
      var clean := CommitProgress(w, s);
      if clean.raised then clean
      else
        var called := Called(clean, [id]);
        if w.single(id) then StoredAndLogged(w, called, id) else FailedAndLogged(w, called, id)
  }

  /** One turn after another, until an exception. */
  function TakeAll(w: World, s: Stage, turns: seq<Turn>): Stage
    decreases |turns|
  {
    if turns == [] || s.raised then s else TakeAll(w, Take(w, s, turns[0]), turns[1..])
  }

  // ---------------------------------------------------------------------
  // Batches
  // ---------------------------------------------------------------------

  predicate NeedsAi(w: World, id: RowId) {
    w.maps(id) && w.prompt(id).HasPrompt?
  }

  function Prompted(w: World, ids: seq<RowId>): seq<RowId> {
    if ids == [] then [] else (if NeedsAi(w, ids[0]) then [ids[0]] else []) + Prompted(w, ids[1..])
  }

  function Ids(items: seq<Item>): seq<RowId> {
    seq(|items|, i requires 0 <= i < |items| => items[i].id)
  }

  /** The batch contract: the items of the request, each once and in its order. */
  function ValidateBatchOutput(expected: seq<RowId>, answer: Answer): Result<seq<Item>, string> {
    if answer.Raised? then Failure("client error")
    else if Ids(answer.items) != expected then Failure("order mismatch")
    else if exists item | item in answer.items :: item.normalized && item.id in answer.violating
    then Failure("source policy")
    else Success(answer.items)
  }

  function MappedTurns(ids: seq<RowId>): seq<Turn> {
    seq(|ids|, i requires 0 <= i < |ids| => Mapped(ids[i]))
  }

  function PreparedTurns(ids: seq<RowId>): seq<Turn> {
    seq(|ids|, i requires 0 <= i < |ids| => Prepared(ids[i]))
  }

  function RequestedTurns(ids: seq<RowId>): seq<Turn> {
    seq(|ids|, i requires 0 <= i < |ids| => Requested(ids[i]))
  }

  function FailedTurns(ids: seq<RowId>): seq<Turn> {
    seq(|ids|, i requires 0 <= i < |ids| => Answered(ids[i], false))
  }

  function ItemTurns(items: seq<Item>): seq<Turn> {
    seq(|items|, i requires 0 <= i < |items| => Answered(items[i].id, items[i].normalized))
  }

  function AnsweredTurns(w: World, ids: seq<RowId>): seq<Turn> {
    match ValidateBatchOutput(ids, w.answer(ids))
    case Failure(_) => FailedTurns(ids)
    case Success(items) => ItemTurns(items)
  }

  function BatchCall(w: World, s: Stage, ids: seq<RowId>): Stage {
    var clean := CommitProgress(w, s);
    if clean.raised then clean else TakeAll(w, Called(clean, ids), AnsweredTurns(w, ids))
  }

  function NormalizeBatch(w: World, s: Stage, batch: seq<RowId>): Stage {
    var prepared, ids := TakeAll(w, s, PreparedTurns(batch)), Prompted(w, batch);
    if prepared.raised || ids == [] then prepared
    else if !w.hasBatchCall then TakeAll(w, prepared, RequestedTurns(ids))
    else BatchCall(w, prepared, ids)
  }

  function BatchTurn(w: World, s: Stage, batch: seq<RowId>): Stage {
    var clean := CommitProgress(w, s);
    if clean.raised then clean
    else
      var done := NormalizeBatch(w, clean, batch);
      if done.raised then done else CommitProgress(w, done)
  }

  function BatchTurns(w: World, s: Stage, batches: seq<seq<RowId>>): Stage
    decreases |batches|
  {
    if batches == [] || s.raised then s else BatchTurns(w, BatchTurn(w, s, batches[0]), batches[1..])
  }

  function Chunked(items: seq<RowId>, size: int): seq<seq<RowId>>
    requires size > 0
    decreases |items|
  {
    if items == [] then []
    else
      var n := if size < |items| then size else |items|;
      [items[..n]] + Chunked(items[n..], size)
  }

  function ChunkCount(total: int, size: int): int
    requires size > 0
  {
    if total <= 0 then 0 else (total + size - 1) / size
  }

  // ---------------------------------------------------------------------
  // The stage
  // ---------------------------------------------------------------------

  function AllIds(raws: seq<RawJob>): seq<RowId> {
    seq(|raws|, i requires 0 <= i < |raws| => raws[i].id)
  }

  function Selected(raws: seq<RawJob>, decisions: seq<Decision>): seq<RowId> {
    if raws == [] || decisions == [] then []
    else
      (if decisions[0].reason.NormalizationEligible? then [raws[0].id] else [])
      + Selected(raws[1..], decisions[1..])
  }

  /** Without a gate every fetched raw job goes on. */
  function Admitted(gate: Option<Known>, raws: seq<RawJob>): seq<RowId> {
    match gate
    case None => AllIds(raws)
    case Some(known) => Selected(raws, Decisions(known, raws))
  }

  function GateWrites(raws: seq<RawJob>): seq<Write> {
    seq(|raws|, i requires 0 <= i < |raws| => GateDecision(raws[i].id))
  }

  function Gated(gate: Option<Known>, session: Session, raws: seq<RawJob>): Session {
    if gate.Some? then session.(pending := session.pending + GateWrites(raws)) else session
  }

  function Opened(gate: Option<Known>, session: Session, raws: seq<RawJob>): Stage {
    Stage(Gated(gate, session, raws),
          SourceResult(|raws|, 0, 0, 0, |raws| - |Admitted(gate, raws)|, [], false), [], false)
  }

  /** The last commit is not retried. */
  function Closed(w: World, s: Stage): Stage {
    if s.raised || w.fails(|s.session.operations|) then s.(raised := true)
    else
      s.(session := Attempt(w, s.session, Commit),
         result := s.result.(parsed := s.result.normalized, failed := s.result.errors != []))
  }

  function Worked(w: World, s: Stage, ids: seq<RowId>): Stage
    requires w.batchSize > 0
  {
    if !w.hasClient then TakeAll(w, s, MappedTurns(ids)) else BatchTurns(w, s, Chunked(ids, w.batchSize))
  }

  function NormalizeSource(w: World, gate: Option<Known>, session: Session, raws: seq<RawJob>): Stage
    requires w.batchSize > 0
  {
    Closed(w, Worked(w, Opened(gate, session, raws), Admitted(gate, raws)))
  }

  // ---------------------------------------------------------------------
  // The orchestrator
  // ---------------------------------------------------------------------

  lemma TakeNext(w: World, s: Stage, turns: seq<Turn>, i: nat)
    requires i < |turns| && !s.raised
    ensures TakeAll(w, s, turns[i..]) == TakeAll(w, Take(w, s, turns[i]), turns[i + 1..])
  {
    hide Take;
    assert turns[i..][1..] == turns[i + 1..];
  }

  lemma BatchNext(w: World, s: Stage, batches: seq<seq<RowId>>, i: nat)
    requires i < |batches| && !s.raised
    ensures BatchTurns(w, s, batches[i..]) == BatchTurns(w, BatchTurn(w, s, batches[i]), batches[i + 1..])
  {
    hide BatchTurn;
    assert batches[i..][1..] == batches[i + 1..];
  }

  lemma {:induction false} PromptedSnoc(w: World, ids: seq<RowId>, id: RowId)
    ensures Prompted(w, ids + [id]) == Prompted(w, ids) + (if NeedsAi(w, id) then [id] else [])
  {
    if ids == [] {
      assert [] + [id] == [id];
    } else {
      PromptedSnoc(w, ids[1..], id);
      assert (ids + [id])[1..] == ids[1..] + [id];
    }
  }

  lemma {:induction false} SelectedSnoc(raws: seq<RawJob>, decisions: seq<Decision>, raw: RawJob, d: Decision)
    requires |raws| == |decisions|
    ensures Selected(raws + [raw], decisions + [d])
            == Selected(raws, decisions) + (if d.reason.NormalizationEligible? then [raw.id] else [])
  {
    if raws == [] {
      assert [] + [raw] == [raw] && [] + [d] == [d];
    } else {
      SelectedSnoc(raws[1..], decisions[1..], raw, d);
      assert (raws + [raw])[1..] == raws[1..] + [raw];
      assert (decisions + [d])[1..] == decisions[1..] + [d];
    }
  }

  class PipelineOrchestrator {
    const w: World
    const resolver: EligibilityResolver
    var session: Session
    var result: SourceResult
    var calls: seq<AiCall>
    var raised: bool

    constructor (w: World, resolver: EligibilityResolver, session: Session)
      ensures this.w == w && this.resolver == resolver
      ensures State() == Stage(session, SourceResult(0, 0, 0, 0, 0, [], false), [], false)
    {
      this.w, this.resolver, this.session := w, resolver, session;
      result, calls, raised := SourceResult(0, 0, 0, 0, 0, [], false), [], false;
    }

    function State(): Stage
      reads this
    {
      Stage(session, result, calls, raised)
    }

    /** One operation on the session, rolled back when the database fails it. */
    method Execute(op: Operation) returns (done: bool)
      modifies this`session
      ensures session == Attempt(w, old(session), op) && done == !w.fails(|old(session).operations|)
    {
      done := !w.fails(|session.operations|);
      session := session.(operations := session.operations + [op]);
      if !done {
        session := session.(faults := session.faults + 1);
        session := session.(discarded := session.discarded + session.pending, pending := []);
      } else if op.Insert? {
        session := session.(pending := session.pending + [op.write]);
      } else {
        session := session.(committed := session.committed + session.pending, pending := []);
      }
    }

    method DbOperationWithRetry(op: Operation)
      requires !raised
      modifies this`session, this`raised
      ensures State() == WithRetry(w, old(State()), op)
    {
      var attempts := 2;
      for attempt := 1 to attempts + 1
        invariant !raised
        invariant attempt == 1 ==> session == old(session)
        invariant attempt == 2 ==> session == Attempt(w, old(session), op) && w.fails(|old(session).operations|)
        invariant attempt <= 2
      {
        if attempt > 1 && Refused(w, session, op) {
          raised := true;
          return;
        }
        var done := Execute(op);
        if done {
          return;
        }
        if attempt >= attempts {
          raised := true;
          return;
        }
      }
    }

    method CommitNormalizeProgress()
      requires !raised
      modifies this`session, this`raised
      ensures State() == CommitProgress(w, old(State()))
    {
      var inTransaction := session.pending != [] || w.reading(|session.operations|);
      if !inTransaction {
        return;
      }
      DbOperationWithRetry(Commit);
    }

    method RecordNormalizeFailure(id: RowId)
      modifies this`result
      ensures State() == Skipped(old(State()), id)
    {
      result := result.(errors := result.errors + [id]);
      result := result.(skipped := result.skipped + 1);
    }

    method Count()
      modifies this`result
      ensures State() == Counted(old(State()))
    {
      result := result.(normalized := result.normalized + 1);
      result := result.(persisted := result.persisted + 1);
    }

    method StoreAndLog(id: RowId)
      requires !raised
      modifies this`session, this`raised, this`result
      ensures State() == StoredAndLogged(w, old(State()), id)
    {
      hide WithRetry;
      DbOperationWithRetry(Insert(Upsert(id)));
      if raised {
        return;
      }
      DbOperationWithRetry(Insert(AiLog(id, true)));
      if raised {
        return;
      }
      Count();
    }

    method FailAndLog(id: RowId)
      requires !raised
      modifies this`session, this`raised, this`result
      ensures State() == FailedAndLogged(w, old(State()), id)
    {
      RecordNormalizeFailure(id);
      DbOperationWithRetry(Insert(AiLog(id, false)));
    }

    /** The loop of a stage without an AI client: here an exhausted retry is caught. */
    method MapStoredJobs(ids: seq<RowId>)
      requires !raised
      modifies this`session, this`raised, this`result
      ensures State() == TakeAll(w, old(State()), MappedTurns(ids))
    {
      hide WithRetry;
      ghost var turns := MappedTurns(ids);
      assert turns[0..] == turns;
      for i := 0 to |ids|
        invariant !raised && TakeAll(w, State(), turns[i..]) == TakeAll(w, old(State()), turns)
      {
        TakeNext(w, State(), turns, i);
        if !w.maps(ids[i]) {
          RecordNormalizeFailure(ids[i]);
        } else {
          DbOperationWithRetry(Insert(Upsert(ids[i])));
          if raised {
            raised := false;
            RecordNormalizeFailure(ids[i]);
          } else {
            Count();
          }
        }
      }
    }

    /** Maps a batch and picks out the jobs the AI client is to be asked about. */
    method PrepareBatch(batch: seq<RowId>) returns (promptItems: seq<RowId>)
      requires !raised
      modifies this`session, this`raised, this`result
      ensures State() == TakeAll(w, old(State()), PreparedTurns(batch))
      ensures !raised ==> promptItems == Prompted(w, batch)
    {
      hide WithRetry, Prompted;
      promptItems := [];
      ghost var turns := PreparedTurns(batch);
      assert turns[0..] == turns;
      NoPrompts(w);
      for i := 0 to |batch|
        invariant !raised && TakeAll(w, State(), turns[i..]) == TakeAll(w, old(State()), turns)
        invariant promptItems == Prompted(w, batch[..i])
      {
        var id := batch[i];
        TakeNext(w, State(), turns, i);
        PromptedSnoc(w, batch[..i], id);
        assert batch[..i + 1] == batch[..i] + [id];
        if !w.maps(id) {
          RecordNormalizeFailure(id);
        } else if w.prompt(id).Unsupported? {
          raised := true;
          return;
        } else if w.prompt(id).NoPrompt? {
          DbOperationWithRetry(Insert(Upsert(id)));
          if raised {
            return;
          }
          Count();
        } else {
          promptItems := promptItems + [id];
        }
      }
      assert batch[..|batch|] == batch;
    }

    method FailBatch(promptItems: seq<RowId>)
      requires !raised
      modifies this`session, this`raised, this`result
      ensures State() == TakeAll(w, old(State()), FailedTurns(promptItems))
    {
      hide FailedAndLogged, StoredAndLogged, CommitProgress;
      ghost var turns := FailedTurns(promptItems);
      assert turns[0..] == turns;
      for i := 0 to |promptItems|
        invariant !raised && TakeAll(w, State(), turns[i..]) == TakeAll(w, old(State()), turns)
      {
        TakeNext(w, State(), turns, i);
        FailAndLog(promptItems[i]);
        if raised {
          return;
        }
      }
    }

    method SettleBatch(items: seq<Item>)
      requires !raised
      modifies this`session, this`raised, this`result
      ensures State() == TakeAll(w, old(State()), ItemTurns(items))
    {
      hide FailedAndLogged, StoredAndLogged, CommitProgress;
      ghost var turns := ItemTurns(items);
      assert turns[0..] == turns;
      for i := 0 to |items|
        invariant !raised && TakeAll(w, State(), turns[i..]) == TakeAll(w, old(State()), turns)
      {
        TakeNext(w, State(), turns, i);
        if items[i].normalized {
          StoreAndLog(items[i].id);
        } else {
          FailAndLog(items[i].id);
        }
        if raised {
          return;
        }
      }
    }

    method NormalizeBatchWithSingleRequests(promptItems: seq<RowId>)
      requires !raised
      modifies this
      ensures State() == TakeAll(w, old(State()), RequestedTurns(promptItems))
    {
      hide FailedAndLogged, StoredAndLogged, CommitProgress;
      ghost var turns := RequestedTurns(promptItems);
      assert turns[0..] == turns;
      for i := 0 to |promptItems|
        invariant !raised && TakeAll(w, State(), turns[i..]) == TakeAll(w, old(State()), turns)
      {
        TakeNext(w, State(), turns, i);
        var id := promptItems[i];
        CommitNormalizeProgress();
        if raised {
          return;
        }
        calls := calls + [AiCall([id], session.pending)];
        if w.single(id) {
          StoreAndLog(id);
        } else {
          FailAndLog(id);
        }
        if raised {
          return;
        }
      }
    }

    method DoNormalizeBatch(batch: seq<RowId>)
      requires !raised
      modifies this
      ensures State() == NormalizeBatch(w, old(State()), batch)
    {
      hide TakeAll, Prompted, CommitProgress;
      var promptItems := PrepareBatch(batch);
      if raised || promptItems == [] {
        return;
      }
      if !w.hasBatchCall {
        NormalizeBatchWithSingleRequests(promptItems);
        return;
      }
      CommitNormalizeProgress();
      if raised {
        return;
      }
      calls := calls + [AiCall(promptItems, session.pending)];
      var answer := ValidateBatchOutput(promptItems, w.answer(promptItems));
      if answer.Failure? {
        FailBatch(promptItems);
      } else {
        SettleBatch(answer.value);
      }
    }

    method NormalizeSourceWithAiBatch(ids: seq<RowId>)
      requires !raised && w.batchSize > 0
      modifies this
      ensures State() == BatchTurns(w, old(State()), Chunked(ids, w.batchSize))
    {
      hide NormalizeBatch, CommitProgress, Chunked;
      var batches := Chunked(ids, w.batchSize);
      assert batches[0..] == batches;
      for i := 0 to |batches|
        invariant !raised && BatchTurns(w, State(), batches[i..]) == BatchTurns(w, old(State()), batches)
      {
        BatchNext(w, State(), batches, i);
        CommitNormalizeProgress();
        if raised {
          return;
        }
        DoNormalizeBatch(batches[i]);
        if raised {
          return;
        }
        CommitNormalizeProgress();
        if raised {
          return;
        }
      }
    }

    method AdmitRawJobs(gate: Option<Known>, rawJobs: seq<RawJob>) returns (eligible: seq<RowId>)
      modifies this`session, resolver
      ensures eligible == Admitted(gate, rawJobs)
      ensures session == Gated(gate, old(session), rawJobs)
    {
      hide Selected, Decisions;
      if gate.None? {
        return AllIds(rawJobs);
      }
      var decisions := resolver.ResolveForRawJobs(gate.value, rawJobs);
      OneDecisionEach(gate.value, rawJobs);
      session := session.(pending := session.pending + GateWrites(rawJobs));
      eligible := [];
      NoneSelected();
      for i := 0 to |rawJobs|
        invariant session == Gated(gate, old(session), rawJobs)
        invariant eligible == Selected(rawJobs[..i], decisions[..i])
      {
        SelectedSnoc(rawJobs[..i], decisions[..i], rawJobs[i], decisions[i]);
        assert rawJobs[..i + 1] == rawJobs[..i] + [rawJobs[i]] && decisions[..i + 1] == decisions[..i] + [decisions[i]];
        if decisions[i].reason.NormalizationEligible? {
          eligible := eligible + [rawJobs[i].id];
        }
      }
      assert rawJobs[..|rawJobs|] == rawJobs && decisions[..|rawJobs|] == decisions;
    }

    method DoNormalizeSource(gate: Option<Known>, rawJobs: seq<RawJob>)
      requires w.batchSize > 0
      requires State() == Stage(session, SourceResult(0, 0, 0, 0, 0, [], false), [], false)
      modifies this, resolver
      ensures State() == NormalizeSource(w, gate, old(session), rawJobs)
    {
      hide TakeAll, BatchTurns, Chunked, Admitted, Gated;
      result := result.(fetched := |rawJobs|);
      var eligible := AdmitRawJobs(gate, rawJobs);
      result := result.(skipped := result.skipped + |rawJobs| - |eligible|);
      if !w.hasClient {
        MapStoredJobs(eligible);
      } else {
        NormalizeSourceWithAiBatch(eligible);
      }
      if raised {
        return;
      }
      if w.fails(|session.operations|) {
        raised := true;
        return;
      }
      var _ := Execute(Commit);
      result := result.(parsed := result.normalized);
      result := result.(failed := result.errors != []);
    }
  }

  lemma NoPrompts(w: World)
    ensures Prompted(w, []) == []
  {
  }

  lemma NoneSelected()
    ensures Selected([], []) == []
  {
  }

  lemma OneDecisionEach(known: Known, raws: seq<RawJob>)
    ensures |Decisions(known, raws)| == |raws|
  {
    if raws != [] {
      EligibleExactlyWhenNew(known, raws, 0);
    }
  }
}
