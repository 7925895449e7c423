/** Where each raw job of a normalize stage ends, told by the mapper, the prompts and the
    answers alone. */
module NormalizeOutcome {
  import opened Eligibility
  import opened Sequences
  import opened Wrappers
  import opened Normalize
  import opened NormalizeReport

  // ---------------------------------------------------------------------
  // What is to become of a job
  // ---------------------------------------------------------------------

  /** What a stage with an AI client makes of a job before it asks. */
  datatype Fate = Unmapped | NotSupported | Plain | Asked

  function FateOf(w: World, id: RowId): Fate {
    if !w.maps(id) then Unmapped
    else
      match w.prompt(id)
      case NoPrompt => Plain
      case HasPrompt => Asked
      case Unsupported => NotSupported
  }

  function OfFate(w: World, ids: seq<RowId>, fate: Fate): seq<RowId> {
    if ids == [] then []
    else (if FateOf(w, ids[0]) == fate then [ids[0]] else []) + OfFate(w, ids[1..], fate)
  }

  predicate Supported(w: World, ids: seq<RowId>) {
    forall id | id in ids :: !FateOf(w, id).NotSupported?
  }

  /** Whether the client's answer takes the i-th of the jobs it was asked about: its own
      answer says so, or the batch answer names these jobs in this order, breaks no source
      policy and has it normalized. */
  predicate Grants(w: World, asked: seq<RowId>, i: nat)
    requires i < |asked|
  {
    if !w.hasBatchCall then w.single(asked[i])
    else
      match w.answer(asked)
      case Raised => false
      case Output(items, violating) =>
        && |items| == |asked|
        && (forall k | 0 <= k < |items| :: items[k].id == asked[k])
        && (forall item | item in items && item.normalized :: item.id !in violating)
        && items[i].normalized
  }

  /** From the k-th on: who is refused, and what is written down about each. */
  function Refused(w: World, asked: seq<RowId>, k: nat): seq<RowId>
    decreases |asked| - k
  {
    if k >= |asked| then [] else (if Grants(w, asked, k) then [] else [asked[k]]) + Refused(w, asked, k + 1)
  }

  function AnswerWrites(w: World, asked: seq<RowId>, k: nat): seq<Write>
    decreases |asked| - k
  {
    if k >= |asked| then []
    else
      (if Grants(w, asked, k) then [Upsert(asked[k]), AiLog(asked[k], true)] else [AiLog(asked[k], false)])
      + AnswerWrites(w, asked, k + 1)
  }

  function SingleCalls(asked: seq<RowId>, k: nat): seq<AiCall>
    decreases |asked| - k
  {
    if k >= |asked| then [] else [AiCall([asked[k]], [])] + SingleCalls(asked, k + 1)
  }

  function UpsertEach(ids: seq<RowId>): seq<Write> {
    seq(|ids|, i requires 0 <= i < |ids| => Upsert(ids[i]))
  }

  /** What is written, who is in error, how many are counted and which calls are made. */
  datatype Effect = Effect(writes: seq<Write>, errors: seq<RowId>, counted: nat, calls: seq<AiCall>)

  const NO_EFFECT := Effect([], [], 0, [])

  function Plus(a: Effect, b: Effect): Effect {
    Effect(a.writes + b.writes, a.errors + b.errors, a.counted + b.counted, a.calls + b.calls)
  }

  function AnswerEffect(w: World, asked: seq<RowId>): Effect
  {
    RefusedAreFew(w, asked, 0);
    Effect(AnswerWrites(w, asked, 0), Refused(w, asked, 0), |asked| - |Refused(w, asked, 0)|,
           if w.hasBatchCall then (if asked == [] then [] else [AiCall(asked, [])]) else SingleCalls(asked, 0))
  }

  /** A batch: jobs without a prompt are stored as mapped, then the client is asked. */
  function BatchEffect(w: World, batch: seq<RowId>): Effect {
    var plain := OfFate(w, batch, Plain);
    Plus(Effect(UpsertEach(plain), OfFate(w, batch, Unmapped), |plain|, []),
         AnswerEffect(w, OfFate(w, batch, Asked)))
  }

  function BatchesEffect(w: World, batches: seq<seq<RowId>>): Effect {
    if batches == [] then NO_EFFECT else Plus(BatchEffect(w, batches[0]), BatchesEffect(w, batches[1..]))
  }

  /** Without a client what is mapped is stored. */
  function MapperEffect(w: World, ids: seq<RowId>): Effect {
    if ids == [] then NO_EFFECT
    else
      Plus(if w.maps(ids[0]) then Effect([Upsert(ids[0])], [], 1, []) else Effect([], [ids[0]], 0, []),
           MapperEffect(w, ids[1..]))
  }

  function StageEffect(w: World, ids: seq<RowId>): Effect
    requires w.batchSize > 0
  {
    if w.hasClient then BatchesEffect(w, Chunked(ids, w.batchSize)) else MapperEffect(w, ids)
  }

  lemma {:induction false} RefusedAreFew(w: World, asked: seq<RowId>, k: nat)
    ensures |Refused(w, asked, k)| <= if k <= |asked| then |asked| - k else 0
    decreases |asked| - k
  {
    hide Grants;
    if k < |asked| {
      RefusedAreFew(w, asked, k + 1);
    }
  }

  // ---------------------------------------------------------------------
  // Over a database that never fails
  // ---------------------------------------------------------------------

  ghost predicate Quiet(w: World) {
    forall n :: !w.fails(n)
  }

  function Writes(s: Session): seq<Write> { s.committed + s.pending }

  /** From s to t exactly this happened, and nothing was rolled back. */
  ghost predicate Has(s: Stage, t: Stage, e: Effect) {
    && !t.raised
    && Writes(t.session) == Writes(s.session) + e.writes && t.session.discarded == s.session.discarded
    && t.calls == s.calls + e.calls
    && t.result == s.result.(errors := s.result.errors + e.errors, skipped := s.result.skipped + |e.errors|,
                             normalized := s.result.normalized + e.counted,
                             persisted := s.result.persisted + e.counted)
  }

  lemma HasComposes(s: Stage, t: Stage, u: Stage, a: Effect, b: Effect)
    requires Has(s, t, a) && Has(t, u, b)
    ensures Has(s, u, Plus(a, b))
  {
  }

  lemma NothingHappens(s: Stage)
    requires !s.raised
    ensures Has(s, s, NO_EFFECT)
    ensures forall e: Effect :: Plus(NO_EFFECT, e) == e && Plus(e, NO_EFFECT) == e
  {
  }

  lemma QuietWrite(w: World, s: Stage, write: Write)
    requires Quiet(w) && !s.raised
    ensures Has(s, WithRetry(w, s, Insert(write)), Effect([write], [], 0, []))
  {
  }

  lemma QuietCommit(w: World, s: Stage)
    requires Quiet(w) && !s.raised
    ensures Has(s, CommitProgress(w, s), NO_EFFECT) && CommitProgress(w, s).session.pending == []
  {
  }

  lemma QuietSkip(s: Stage, id: RowId)
    requires !s.raised
    ensures Has(s, Skipped(s, id), Effect([], [id], 0, []))
  {
  }

  lemma QuietCount(s: Stage)
    requires !s.raised
    ensures Has(s, Counted(s), Effect([], [], 1, []))
  {
  }

  function EffectOf(w: World, turn: Turn): Effect {
    match turn
    case Mapped(id) => if w.maps(id) then Effect([Upsert(id)], [], 1, []) else Effect([], [id], 0, [])
    case Prepared(id) =>
      (match FateOf(w, id)
       case Unmapped => Effect([], [id], 0, [])
       case Plain => Effect([Upsert(id)], [], 1, [])
       case Asked => NO_EFFECT
       case NotSupported => NO_EFFECT)
    case Answered(id, normalized) => Answer(id, normalized)
    case Requested(id) => Answer(id, w.single(id)).(calls := [AiCall([id], [])])
  }

  function Answer(id: RowId, granted: bool): Effect {
    if granted then Effect([Upsert(id), AiLog(id, true)], [], 1, []) else Effect([AiLog(id, false)], [id], 0, [])
  }

  lemma QuietStore(w: World, s: Stage, id: RowId)
    requires Quiet(w) && !s.raised
    ensures var stored := WithRetry(w, s, Insert(Upsert(id)));
            !stored.raised && Has(s, Counted(stored), Effect([Upsert(id)], [], 1, []))
  {
    hide WithRetry, Has;
    var stored := WithRetry(w, s, Insert(Upsert(id)));
    QuietWrite(w, s, Upsert(id));
    assert !stored.raised by { HasMeans(s, stored, Effect([Upsert(id)], [], 0, [])); }
    QuietCount(stored);
    HasComposes(s, stored, Counted(stored), Effect([Upsert(id)], [], 0, []), Effect([], [], 1, []));
    assert [Upsert(id)] + [] == [Upsert(id)];
  }

  lemma HasMeans(s: Stage, t: Stage, e: Effect)
    requires Has(s, t, e)
    ensures !t.raised
  {
  }

  lemma QuietAnswer(w: World, s: Stage, id: RowId)
    requires Quiet(w) && !s.raised
    ensures Has(s, StoredAndLogged(w, s, id), Answer(id, true))
    ensures Has(s, FailedAndLogged(w, s, id), Answer(id, false))
  {
    hide WithRetry, Has;
    var stored := WithRetry(w, s, Insert(Upsert(id)));
    var logged := WithRetry(w, stored, Insert(AiLog(id, true)));
    var skipped := Skipped(s, id);
    QuietWrite(w, s, Upsert(id));
    HasMeans(s, stored, Effect([Upsert(id)], [], 0, []));
    QuietWrite(w, stored, AiLog(id, true));
    HasMeans(stored, logged, Effect([AiLog(id, true)], [], 0, []));
    HasComposes(s, stored, logged, Effect([Upsert(id)], [], 0, []), Effect([AiLog(id, true)], [], 0, []));
    QuietCount(logged);
    var both := Plus(Effect([Upsert(id)], [], 0, []), Effect([AiLog(id, true)], [], 0, []));
    HasComposes(s, logged, Counted(logged), both, Effect([], [], 1, []));
    assert Plus(both, Effect([], [], 1, [])) == Answer(id, true);
    QuietSkip(s, id);
    QuietWrite(w, skipped, AiLog(id, false));
    HasComposes(s, skipped, FailedAndLogged(w, s, id), Effect([], [id], 0, []), Effect([AiLog(id, false)], [], 0, []));
    assert Plus(Effect([], [id], 0, []), Effect([AiLog(id, false)], [], 0, [])) == Answer(id, false);
  }

  lemma QuietCall(s: Stage, ids: seq<RowId>)
    requires !s.raised && s.session.pending == []
    ensures Has(s, Called(s, ids), Effect([], [], 0, [AiCall(ids, [])]))
  {
  }

  lemma CommitThenCall(w: World, s: Stage, ids: seq<RowId>)
    requires Quiet(w) && !s.raised
    ensures var clean := CommitProgress(w, s);
            !clean.raised && Has(s, Called(clean, ids), Effect([], [], 0, [AiCall(ids, [])]))
  {
    hide CommitProgress, Has;
    var clean := CommitProgress(w, s);
    QuietCommit(w, s);
    HasMeans(s, clean, NO_EFFECT);
    QuietCall(clean, ids);
    NothingHappens(s);
    HasComposes(s, clean, Called(clean, ids), NO_EFFECT, Effect([], [], 0, [AiCall(ids, [])]));
  }

  lemma QuietRequest(w: World, s: Stage, id: RowId)
    requires Quiet(w) && !s.raised
    ensures Has(s, Take(w, s, Requested(id)), EffectOf(w, Requested(id)))
  {
    hide CommitProgress, Has, StoredAndLogged, FailedAndLogged;
    var called := Called(CommitProgress(w, s), [id]);
    CommitThenCall(w, s, [id]);
    QuietAnswer(w, called, id);
    var call := Effect([], [], 0, [AiCall([id], [])]);
    HasComposes(s, called, Take(w, s, Requested(id)), call, Answer(id, w.single(id)));
    assert Plus(call, Answer(id, w.single(id))) == EffectOf(w, Requested(id));
  }

  lemma QuietTurn(w: World, s: Stage, turn: Turn)
    requires Quiet(w) && !s.raised && (turn.Prepared? ==> !FateOf(w, turn.id).NotSupported?)
    ensures Has(s, Take(w, s, turn), EffectOf(w, turn))
  {
    hide WithRetry, Has, StoredAndLogged, FailedAndLogged, CommitProgress;
    match turn
    case Mapped(id) =>
      QuietStore(w, s, id);
      QuietSkip(s, id);
    case Prepared(id) =>
      QuietStore(w, s, id);
      QuietSkip(s, id);
      NothingHappens(s);
    case Answered(id, _) => QuietAnswer(w, s, id);
    case Requested(id) => QuietRequest(w, s, id);
  }

  function Sum(w: World, turns: seq<Turn>): Effect {
    if turns == [] then NO_EFFECT else Plus(EffectOf(w, turns[0]), Sum(w, turns[1..]))
  }

  lemma {:induction false} QuietTurns(w: World, s: Stage, turns: seq<Turn>)
    requires Quiet(w) && !s.raised
    requires forall t | t in turns && t.Prepared? :: !FateOf(w, t.id).NotSupported?
    ensures Has(s, TakeAll(w, s, turns), Sum(w, turns))
    decreases |turns|
  {
    hide Has, Take, EffectOf, FateOf;
    if turns == [] {
      NothingHappens(s);
    } else {
      var t := Take(w, s, turns[0]);
      QuietTurn(w, s, turns[0]);
      HasMeans(s, t, EffectOf(w, turns[0]));
      QuietTurns(w, t, turns[1..]);
      HasComposes(s, t, TakeAll(w, t, turns[1..]), EffectOf(w, turns[0]), Sum(w, turns[1..]));
    }
  }

  // ---------------------------------------------------------------------
  // The turns of a batch amount to its effect
  // ---------------------------------------------------------------------

  lemma {:induction false} MappedSum(w: World, ids: seq<RowId>)
    ensures Sum(w, MappedTurns(ids)) == MapperEffect(w, ids)
  {
    if ids != [] {
      MappedSum(w, ids[1..]);
      assert MappedTurns(ids)[1..] == MappedTurns(ids[1..]);
    }
  }

  function PreparedEffect(w: World, ids: seq<RowId>): Effect {
    var plain := OfFate(w, ids, Plain);
    Effect(UpsertEach(plain), OfFate(w, ids, Unmapped), |plain|, [])
  }

  lemma UpsertCons(id: RowId, ids: seq<RowId>)
    ensures UpsertEach([id] + ids) == [Upsert(id)] + UpsertEach(ids)
  {
  }

  lemma PreparedCons(w: World, ids: seq<RowId>)
    requires ids != []
    ensures Plus(EffectOf(w, Prepared(ids[0])), PreparedEffect(w, ids[1..])) == PreparedEffect(w, ids)
  {
    hide UpsertEach, FateOf;
    UpsertCons(ids[0], OfFate(w, ids[1..], Plain));
    var plain, unmapped := OfFate(w, ids[1..], Plain), OfFate(w, ids[1..], Unmapped);
    assert [] + plain == plain && [] + unmapped == unmapped && [] + UpsertEach(plain) == UpsertEach(plain);
  }

  lemma {:induction false} PreparedSum(w: World, ids: seq<RowId>)
    ensures Sum(w, PreparedTurns(ids)) == PreparedEffect(w, ids)
  {
    hide EffectOf;
    if ids != [] {
      PreparedSum(w, ids[1..]);
      PreparedCons(w, ids);
      assert PreparedTurns(ids)[1..] == PreparedTurns(ids[1..]);
    }
  }

  lemma {:induction false} PromptedAreAsked(w: World, ids: seq<RowId>)
    ensures Prompted(w, ids) == OfFate(w, ids, Asked)
  {
    if ids != [] {
      PromptedAreAsked(w, ids[1..]);
    }
  }

  lemma SumFrom(w: World, turns: seq<Turn>, k: nat)
    requires k < |turns|
    ensures Sum(w, turns[k..]) == Plus(EffectOf(w, turns[k]), Sum(w, turns[k + 1..]))
  {
    hide EffectOf;
    assert turns[k..][1..] == turns[k + 1..];
  }

  /** From the k-th job on, without the calls. */
  function AnswersFrom(w: World, asked: seq<RowId>, k: nat): Effect
    requires k <= |asked|
  {
    RefusedAreFew(w, asked, k);
    Effect(AnswerWrites(w, asked, k), Refused(w, asked, k), |asked| - k - |Refused(w, asked, k)|, [])
  }

  lemma AnswersCons(w: World, asked: seq<RowId>, k: nat)
    requires k < |asked|
    ensures Plus(Answer(asked[k], Grants(w, asked, k)), AnswersFrom(w, asked, k + 1)) == AnswersFrom(w, asked, k)
  {
    hide Grants;
  }

  lemma {:induction false} AnsweredSum(w: World, asked: seq<RowId>, turns: seq<Turn>, k: nat)
    requires k <= |asked| == |turns|
    requires forall i | 0 <= i < |asked| :: turns[i] == Answered(asked[i], Grants(w, asked, i))
    ensures Sum(w, turns[k..]) == AnswersFrom(w, asked, k)
    decreases |asked| - k
  {
    hide Grants, Sum;
    if k == |asked| {
      assert turns[k..] == [];
      NothingSummed(w);
    } else {
      AnsweredSum(w, asked, turns, k + 1);
      SumFrom(w, turns, k);
      AnswersCons(w, asked, k);
    }
  }

  lemma NothingSummed(w: World)
    ensures Sum(w, []) == NO_EFFECT
  {
  }

  lemma {:induction false} RequestedSum(w: World, asked: seq<RowId>, k: nat)
    requires !w.hasBatchCall && k <= |asked|
    ensures Sum(w, RequestedTurns(asked)[k..]) == AnswersFrom(w, asked, k).(calls := SingleCalls(asked, k))
    decreases |asked| - k
  {
    hide Sum;
    if k == |asked| {
      assert RequestedTurns(asked)[k..] == [];
      NothingSummed(w);
    } else {
      RequestedSum(w, asked, k + 1);
      SumFrom(w, RequestedTurns(asked), k);
      AnswersCons(w, asked, k);
    }
  }

  /** The batch answer grants what it should. */
  lemma AnswersGrant(w: World, asked: seq<RowId>)
    requires w.hasBatchCall
    ensures var turns := AnsweredTurns(w, asked);
            |turns| == |asked| && forall i | 0 <= i < |asked| :: turns[i] == Answered(asked[i], Grants(w, asked, i))
  {
    var answer := w.answer(asked);
    if answer.Output? {
      var items := answer.items;
      assert Ids(items) == asked <==> |items| == |asked| && forall k | 0 <= k < |items| :: items[k].id == asked[k] by {
        if Ids(items) == asked {
          assert forall k | 0 <= k < |items| :: Ids(items)[k] == asked[k];
        }
      }
    }
  }

  lemma QuietBatchCall(w: World, s: Stage, asked: seq<RowId>)
    requires Quiet(w) && !s.raised && w.hasBatchCall && asked != []
    ensures Has(s, BatchCall(w, s, asked), AnswerEffect(w, asked))
  {
    hide CommitProgress, Has, TakeAll, AnsweredTurns, Quiet, Grants;
    var called, turns := Called(CommitProgress(w, s), asked), AnsweredTurns(w, asked);
    CommitThenCall(w, s, asked);
    AnswersGrant(w, asked);
    assert turns[0..] == turns;
    AnsweredSum(w, asked, turns, 0);
    assert forall t | t in turns :: !t.Prepared?;
    assert !called.raised;
    QuietTurns(w, called, turns);
    var call := Effect([], [], 0, [AiCall(asked, [])]);
    HasComposes(s, called, BatchCall(w, s, asked), call, AnswersFrom(w, asked, 0));
    CallThenAnswers(w, asked);
  }

  lemma CallThenAnswers(w: World, asked: seq<RowId>)
    requires w.hasBatchCall && asked != []
    ensures Plus(Effect([], [], 0, [AiCall(asked, [])]), AnswersFrom(w, asked, 0)) == AnswerEffect(w, asked)
  {
    hide Grants;
  }

  lemma QuietRequests(w: World, s: Stage, asked: seq<RowId>)
    requires Quiet(w) && !s.raised && !w.hasBatchCall
    ensures Has(s, TakeAll(w, s, RequestedTurns(asked)), AnswerEffect(w, asked))
  {
    hide Has, TakeAll, Quiet, Grants;
    QuietTurns(w, s, RequestedTurns(asked));
    RequestedSum(w, asked, 0);
    assert RequestedTurns(asked)[0..] == RequestedTurns(asked);
  }

  lemma NobodyAsked(w: World)
    ensures AnswerEffect(w, []) == NO_EFFECT
  {
  }

  lemma QuietBatch(w: World, s: Stage, batch: seq<RowId>)
    requires Quiet(w) && !s.raised && Supported(w, batch)
    ensures Has(s, NormalizeBatch(w, s, batch), BatchEffect(w, batch))
  {
    hide Has, TakeAll, Quiet, Prompted, OfFate, PreparedTurns, RequestedTurns, BatchCall, AnswerEffect, FateOf;
    var prepared, asked := TakeAll(w, s, PreparedTurns(batch)), OfFate(w, batch, Asked);
    PromptedAreAsked(w, batch);
    PreparedSum(w, batch);
    assert forall t | t in PreparedTurns(batch) && t.Prepared? :: !FateOf(w, t.id).NotSupported? by {
      PreparedSupported(w, batch);
    }
    QuietTurns(w, s, PreparedTurns(batch));
    HasMeans(s, prepared, PreparedEffect(w, batch));
    if asked == [] {
      NobodyAsked(w);
      NothingHappens(prepared);
    } else if w.hasBatchCall {
      QuietBatchCall(w, prepared, asked);
    } else {
      QuietRequests(w, prepared, asked);
    }
    HasComposes(s, prepared, NormalizeBatch(w, s, batch), PreparedEffect(w, batch), AnswerEffect(w, asked));
  }

  lemma PreparedSupported(w: World, batch: seq<RowId>)
    requires Supported(w, batch)
    ensures forall t | t in PreparedTurns(batch) && t.Prepared? :: !FateOf(w, t.id).NotSupported?
  {
    hide FateOf;
  }

  lemma QuietBatchTurn(w: World, s: Stage, batch: seq<RowId>)
    requires Quiet(w) && !s.raised && Supported(w, batch)
    ensures Has(s, BatchTurn(w, s, batch), BatchEffect(w, batch))
  {
    hide Has, Quiet, Supported, NormalizeBatch, CommitProgress, BatchEffect;
    var clean := CommitProgress(w, s);
    QuietCommit(w, s);
    HasMeans(s, clean, NO_EFFECT);
    QuietBatch(w, clean, batch);
    var done, e := NormalizeBatch(w, clean, batch), BatchEffect(w, batch);
    HasMeans(clean, done, e);
    QuietCommit(w, done);
    NothingHappens(s);
    HasComposes(s, clean, done, NO_EFFECT, e);
    HasComposes(s, done, CommitProgress(w, done), Plus(NO_EFFECT, e), NO_EFFECT);
    assert Plus(NO_EFFECT, e) == e && Plus(e, NO_EFFECT) == e;
  }

  lemma {:induction false} QuietBatches(w: World, s: Stage, batches: seq<seq<RowId>>)
    requires Quiet(w) && !s.raised && Supported(w, Flatten(batches))
    ensures Has(s, BatchTurns(w, s, batches), BatchesEffect(w, batches))
    decreases |batches|
  {
    hide Has, Quiet, BatchTurn, BatchEffect, FateOf, Flatten;
    if batches == [] {
      NothingHappens(s);
    } else {
      FlattenHead(batches);
      assert forall id | id in batches[0] :: id in Flatten(batches);
      assert forall id | id in Flatten(batches[1..]) :: id in Flatten(batches);
      var next := BatchTurn(w, s, batches[0]);
      QuietBatchTurn(w, s, batches[0]);
      HasMeans(s, next, BatchEffect(w, batches[0]));
      QuietBatches(w, next, batches[1..]);
      HasComposes(s, next, BatchTurns(w, next, batches[1..]), BatchEffect(w, batches[0]),
                  BatchesEffect(w, batches[1..]));
    }
  }

  // ---------------------------------------------------------------------
  // A prompt that cannot be built ends the stage, over any database
  // ---------------------------------------------------------------------

  lemma {:induction false} RaisedStays(w: World, s: Stage, turns: seq<Turn>)
    ensures s.raised ==> TakeAll(w, s, turns) == s
    ensures turns == [] ==> TakeAll(w, s, turns) == s
  {
  }

  lemma {:induction false} UnsupportedRaises(w: World, s: Stage, ids: seq<RowId>)
    requires !Supported(w, ids)
    ensures TakeAll(w, s, PreparedTurns(ids)).raised
    decreases |ids|
  {
    hide WithRetry;
    if !s.raised {
      var id :| id in ids && FateOf(w, id).NotSupported?;
      assert PreparedTurns(ids)[1..] == PreparedTurns(ids[1..]);
      if FateOf(w, ids[0]).NotSupported? {
        RaisedStays(w, Take(w, s, Prepared(ids[0])), PreparedTurns(ids[1..]));
      } else {
        assert ids == [ids[0]] + ids[1..];
        assert id in ids[1..];
        UnsupportedRaises(w, Take(w, s, Prepared(ids[0])), ids[1..]);
      }
    }
  }

  lemma UnsupportedBatchRaises(w: World, s: Stage, batch: seq<RowId>)
    requires !Supported(w, batch)
    ensures BatchTurn(w, s, batch).raised
  {
    hide TakeAll, Supported, CommitProgress, Prompted;
    UnsupportedRaises(w, CommitProgress(w, s), batch);
  }

  lemma {:induction false} UnsupportedBatchesRaise(w: World, s: Stage, batches: seq<seq<RowId>>)
    requires !Supported(w, Flatten(batches))
    ensures BatchTurns(w, s, batches).raised
    decreases |batches|
  {
    hide BatchTurn, FateOf, Flatten;
    if batches == [] {
      NothingFlat();
    } else if !s.raised {
      FlattenHead(batches);
      if Supported(w, batches[0]) {
        var id :| id in Flatten(batches) && FateOf(w, id).NotSupported?;
        assert id in Flatten(batches[1..]);
        UnsupportedBatchesRaise(w, BatchTurn(w, s, batches[0]), batches[1..]);
      } else {
        UnsupportedBatchRaises(w, s, batches[0]);
      }
    }
  }

  lemma NothingFlat()
    ensures Flatten<RowId>([]) == []
  {
  }

  // ---------------------------------------------------------------------
  // Main results
  // ---------------------------------------------------------------------

  /** Nothing but the gate has happened yet. */
  lemma QuietStart(gate: Option<Known>, session: Session, raws: seq<RawJob>)
    ensures var s := Opened(gate, session, raws);
            && !s.raised && s.calls == [] && s.session.discarded == session.discarded
            && Writes(s.session) == Writes(session) + (if gate.Some? then GateWrites(raws) else [])
  {
    hide Admitted, GateWrites;
    var s := Opened(gate, session, raws);
    var gated := if gate.Some? then GateWrites(raws) else [];
    assert session.committed + (session.pending + gated) == Writes(session) + gated;
    assert session.pending + [] == session.pending;
  }

  lemma QuietWork(w: World, s: Stage, ids: seq<RowId>)
    requires Quiet(w) && !s.raised && w.batchSize > 0 && (w.hasClient ==> Supported(w, ids))
    ensures Has(s, Worked(w, s, ids), StageEffect(w, ids))
  {
    hide Has, Quiet, Chunked, BatchTurns, TakeAll, MappedTurns, Supported;
    if w.hasClient {
      ChunksPartition(ids, w.batchSize);
      QuietBatches(w, s, Chunked(ids, w.batchSize));
    } else {
      assert forall t | t in MappedTurns(ids) :: !t.Prepared? by { MappedAreMapped(ids); }
      QuietTurns(w, s, MappedTurns(ids));
      MappedSum(w, ids);
    }
  }

  lemma MappedAreMapped(ids: seq<RowId>)
    ensures forall t | t in MappedTurns(ids) :: t.Mapped?
  {
  }

  /** What a stage over a database that never fails leaves behind: exactly the writes, errors,
      counts and AI calls that the mapper, the prompts and the answers call for. */
  ghost predicate DoesItsPart(w: World, gate: Option<Known>, session: Session, raws: seq<RawJob>, t: Stage)
    requires w.batchSize > 0
  {
    var e := StageEffect(w, Admitted(gate, raws));
    && t.session.committed
       == session.committed + session.pending + (if gate.Some? then GateWrites(raws) else []) + e.writes
    && t.session.pending == [] && t.session.discarded == session.discarded
    && t.result.errors == e.errors && t.result.normalized == e.counted
    && t.calls == e.calls
  }

  /** Over a database that never fails a stage raises exactly when it has a client and the
      prompt of an admitted job that maps cannot be built; otherwise it does its part in
      full. */
  lemma QuietStageDoesItsPart(w: World, gate: Option<Known>, session: Session, raws: seq<RawJob>)
    requires Quiet(w) && w.batchSize > 0
    ensures var t := NormalizeSource(w, gate, session, raws);
            && (t.raised <==> w.hasClient && !Supported(w, Admitted(gate, raws)))
            && (!t.raised ==> DoesItsPart(w, gate, session, raws, t))
  {
    hide Admitted, Chunked, BatchTurns, TakeAll, Supported, StageEffect, MappedTurns, GateWrites;
    var ids, start := Admitted(gate, raws), Opened(gate, session, raws);
    QuietStart(gate, session, raws);
    if w.hasClient && !Supported(w, ids) {
      ChunksPartition(ids, w.batchSize);
      UnsupportedBatchesRaise(w, start, Chunked(ids, w.batchSize));
    } else {
      QuietWork(w, start, ids);
      hide Worked;
      var worked := Worked(w, start, ids);
      assert !w.fails(|worked.session.operations|);
      assert worked.session.committed + worked.session.pending == Writes(worked.session);
      assert [] + StageEffect(w, ids).errors == StageEffect(w, ids).errors;
      assert [] + StageEffect(w, ids).calls == StageEffect(w, ids).calls;
    }
  }

  /** The same world over a database that never fails. */
  function Quieted(w: World): World {
    w.(fails := (n: nat) => false)
  }

  lemma {:induction false} SameEffects(v: World, w: World, ids: seq<RowId>)
    requires DifferInDatabase(v, w)
    ensures forall fate :: OfFate(v, ids, fate) == OfFate(w, ids, fate)
  {
    if ids != [] {
      SameEffects(v, w, ids[1..]);
    }
  }

  lemma {:induction false} SameAnswers(v: World, w: World, asked: seq<RowId>, k: nat)
    requires DifferInDatabase(v, w)
    ensures Refused(v, asked, k) == Refused(w, asked, k) && AnswerWrites(v, asked, k) == AnswerWrites(w, asked, k)
    decreases |asked| - k
  {
    if k < |asked| {
      SameAnswers(v, w, asked, k + 1);
    }
  }

  lemma SameAnswerEffect(v: World, w: World, asked: seq<RowId>)
    requires DifferInDatabase(v, w)
    ensures AnswerEffect(v, asked) == AnswerEffect(w, asked)
  {
    hide Refused, AnswerWrites;
    SameAnswers(v, w, asked, 0);
  }

  lemma SameBatch(v: World, w: World, batch: seq<RowId>)
    requires DifferInDatabase(v, w)
    ensures BatchEffect(v, batch) == BatchEffect(w, batch)
  {
    hide OfFate, AnswerEffect;
    SameEffects(v, w, batch);
    assert OfFate(v, batch, Plain) == OfFate(w, batch, Plain);
    assert OfFate(v, batch, Unmapped) == OfFate(w, batch, Unmapped);
    assert OfFate(v, batch, Asked) == OfFate(w, batch, Asked);
    SameAnswerEffect(v, w, OfFate(w, batch, Asked));
  }

  lemma {:induction false} SameBatches(v: World, w: World, batches: seq<seq<RowId>>)
    requires DifferInDatabase(v, w)
    ensures BatchesEffect(v, batches) == BatchesEffect(w, batches)
  {
    hide BatchEffect;
    if batches != [] {
      SameBatch(v, w, batches[0]);
      SameBatches(v, w, batches[1..]);
    }
  }

  /** On the AI path, whatever the database does, the errors of a stage that returns are
      exactly the admitted jobs that do not map or whose answer does not take them, batch by
      batch; all others are counted. */
  lemma AiReportIsExact(w: World, gate: Option<Known>, session: Session, raws: seq<RawJob>)
    requires w.batchSize > 0 && w.hasClient && !NormalizeSource(w, gate, session, raws).raised
    ensures var r, e := NormalizeSource(w, gate, session, raws).result, StageEffect(w, Admitted(gate, raws));
            && Supported(w, Admitted(gate, raws))
            && r.errors == e.errors && r.normalized == e.counted
            && r.skipped == |raws| - |Admitted(gate, raws)| + |e.errors|
  {
    hide Chunked, BatchTurns, Supported, BatchesEffect, Admitted;
    var v, ids := Quieted(w), Admitted(gate, raws);
    if !Supported(w, ids) {
      ChunksPartition(ids, w.batchSize);
      UnsupportedBatchesRaise(w, Opened(gate, session, raws), Chunked(ids, w.batchSize));
      assert false;
    }
    assert Supported(v, ids) by { SameSupport(v, w, ids); }
    QuietStageDoesItsPart(v, gate, session, raws);
    ReportHidesRollbacks(v, w, gate, session, session, raws);
    SameBatches(v, w, Chunked(ids, w.batchSize));
    ReportAddsUp(w, gate, session, raws);
  }

  lemma SameSupport(v: World, w: World, ids: seq<RowId>)
    requires DifferInDatabase(v, w)
    ensures Supported(v, ids) <==> Supported(w, ids)
  {
  }

  // ---------------------------------------------------------------------
  // Job by job
  // ---------------------------------------------------------------------

  /** A job of a batch is to be stored when it maps and has no prompt, or when it is asked
      about and the answer takes it. */
  predicate DueIn(w: World, batch: seq<RowId>, id: RowId) {
    && id in batch && w.maps(id)
    && match w.prompt(id)
       case NoPrompt => true
       case Unsupported => false
       case HasPrompt =>
         var asked := OfFate(w, batch, Asked);
         exists i :: 0 <= i < |asked| && asked[i] == id && Grants(w, asked, i)
  }

  lemma {:induction false} FateIsKept(w: World, ids: seq<RowId>, fate: Fate, id: RowId)
    ensures id in OfFate(w, ids, fate) <==> id in ids && FateOf(w, id) == fate
  {
    hide FateOf;
    if ids != [] {
      FateIsKept(w, ids[1..], fate, id);
      assert ids == [ids[0]] + ids[1..];
    }
  }

  lemma {:induction false} AnswersStore(w: World, asked: seq<RowId>, k: nat, id: RowId)
    requires k <= |asked|
    ensures Upsert(id) in AnswerWrites(w, asked, k)
            <==> exists i :: k <= i < |asked| && asked[i] == id && Grants(w, asked, i)
    decreases |asked| - k
  {
    hide Grants;
    if k < |asked| {
      AnswersStore(w, asked, k + 1, id);
      if Upsert(id) in AnswerWrites(w, asked, k + 1) {
        var i :| k + 1 <= i < |asked| && asked[i] == id && Grants(w, asked, i);
      }
    }
  }

  lemma UpsertsEach(ids: seq<RowId>, id: RowId)
    ensures Upsert(id) in UpsertEach(ids) <==> id in ids
  {
    if id in ids {
      var i :| 0 <= i < |ids| && ids[i] == id;
      assert UpsertEach(ids)[i] == Upsert(id);
    }
  }

  lemma BatchStores(w: World, batch: seq<RowId>, id: RowId)
    ensures Upsert(id) in BatchEffect(w, batch).writes <==> DueIn(w, batch, id)
  {
    hide OfFate, AnswerWrites, UpsertEach, Grants, Refused;
    var plain, asked := OfFate(w, batch, Plain), OfFate(w, batch, Asked);
    UpsertsEach(plain, id);
    AnswersStore(w, asked, 0, id);
    FateIsKept(w, batch, Plain, id);
    FateIsKept(w, batch, Asked, id);
    if exists i :: 0 <= i < |asked| && asked[i] == id && Grants(w, asked, i) {
      assert id in asked;
    }
  }

  lemma {:induction false} BatchesStore(w: World, batches: seq<seq<RowId>>, id: RowId)
    ensures Upsert(id) in BatchesEffect(w, batches).writes <==> exists batch | batch in batches :: DueIn(w, batch, id)
  {
    hide BatchEffect, DueIn;
    if batches != [] {
      BatchStores(w, batches[0], id);
      BatchesStore(w, batches[1..], id);
      assert batches == [batches[0]] + batches[1..];
    }
  }

  lemma {:induction false} MapperStores(w: World, ids: seq<RowId>, id: RowId)
    ensures Upsert(id) in MapperEffect(w, ids).writes <==> id in ids && w.maps(id)
  {
    if ids != [] {
      MapperStores(w, ids[1..], id);
      assert ids == [ids[0]] + ids[1..];
    }
  }

  lemma GateStoresNothing(raws: seq<RawJob>, id: RowId)
    ensures Upsert(id) !in GateWrites(raws)
  {
  }

  /** Over a database that never fails, a job that was not stored before is stored by a stage
      that returns exactly when it is admitted and, without a client, maps, or with one, is
      due in its batch. */
  lemma StoredExactlyWhenDue(w: World, gate: Option<Known>, session: Session, raws: seq<RawJob>, id: RowId)
    requires Quiet(w) && w.batchSize > 0 && !NormalizeSource(w, gate, session, raws).raised
    requires Upsert(id) !in session.committed && Upsert(id) !in session.pending
    ensures var ids := Admitted(gate, raws);
            Upsert(id) in NormalizeSource(w, gate, session, raws).session.committed <==>
            if w.hasClient then exists batch | batch in Chunked(ids, w.batchSize) :: DueIn(w, batch, id)
            else id in ids && w.maps(id)
  {
    hide NormalizeSource, Admitted, Chunked, BatchesEffect, MapperEffect, DueIn, GateWrites, Supported;
    var ids := Admitted(gate, raws);
    QuietStageDoesItsPart(w, gate, session, raws);
    GateStoresNothing(raws, id);
    BatchesStore(w, Chunked(ids, w.batchSize), id);
    MapperStores(w, ids, id);
  }

  // ---------------------------------------------------------------------
  // Without a client, over any database
  // ---------------------------------------------------------------------

  /** The operation number at which the stage is done with these jobs: one attempt per job
      that maps, and one more when that fails. */
  function OperationAfter(w: World, n: nat, ids: seq<RowId>): nat
    decreases |ids|
  {
    if ids == [] then n
    else OperationAfter(w, if !w.maps(ids[0]) then n else if w.fails(n) then n + 2 else n + 1, ids[1..])
  }

  /** The jobs that do not map and those for which both attempts fail. */
  function Unstored(w: World, n: nat, ids: seq<RowId>): seq<RowId>
    decreases |ids|
  {
    if ids == [] then []
    else
      var lost := !w.maps(ids[0]) || (w.fails(n) && w.fails(n + 1));
      (if lost then [ids[0]] else [])
      + Unstored(w, if !w.maps(ids[0]) then n else if w.fails(n) then n + 2 else n + 1, ids[1..])
  }

  lemma MappedTurn(w: World, s: Stage, id: RowId)
    requires !s.raised
    ensures var n, t := |s.session.operations|, Take(w, s, Mapped(id));
            && !t.raised
            && |t.session.operations| == (if !w.maps(id) then n else if w.fails(n) then n + 2 else n + 1)
            && t.result.errors == s.result.errors
                                  + if !w.maps(id) || (w.fails(n) && w.fails(n + 1)) then [id] else []
  {
  }

  lemma {:induction false} MappedTurnsOverAny(w: World, s: Stage, ids: seq<RowId>)
    requires !s.raised
    ensures var n, t := |s.session.operations|, TakeAll(w, s, MappedTurns(ids));
            && !t.raised
            && |t.session.operations| == OperationAfter(w, n, ids)
            && t.result.errors == s.result.errors + Unstored(w, n, ids)
    decreases |ids|
  {
    hide Take;
    if ids != [] {
      MappedTurn(w, s, ids[0]);
      assert MappedTurns(ids)[1..] == MappedTurns(ids[1..]);
      MappedTurnsOverAny(w, Take(w, s, Mapped(ids[0])), ids[1..]);
    }
  }

  /** Without a client a stage raises exactly when its last operation, the commit, fails; and
      its errors are exactly the admitted jobs that do not map or for which both attempts to
      store them fail. */
  lemma MapperStageIsExact(w: World, gate: Option<Known>, session: Session, raws: seq<RawJob>)
    requires w.batchSize > 0 && !w.hasClient
    ensures var t, n, ids := NormalizeSource(w, gate, session, raws), |session.operations|, Admitted(gate, raws);
            && (t.raised <==> w.fails(OperationAfter(w, n, ids)))
            && t.result.errors == Unstored(w, n, ids)
            && (!t.raised ==> |t.session.operations| == OperationAfter(w, n, ids) + 1)
  {
    hide Admitted, TakeAll, MappedTurns, GateWrites;
    var ids, start := Admitted(gate, raws), Opened(gate, session, raws);
    MappedTurnsOverAny(w, start, ids);
    assert [] + Unstored(w, |session.operations|, ids) == Unstored(w, |session.operations|, ids);
  }

  // ---------------------------------------------------------------------
  // When a failing database ends the stage
  // ---------------------------------------------------------------------

  /** Both attempts of the operation with this number fail. */
  predicate FailsTwice(w: World, n: nat) { w.fails(n) && w.fails(n + 1) }

  /** The number of the operation behind one that is tried again once. */
  function NextOperation(w: World, n: nat): nat { if w.fails(n) then n + 2 else n + 1 }

  /** Storing a job ends the stage exactly when both attempts at it fail, or both at its log
      entry, or when the first of these fails, which takes the job away, and the entry is then
      refused for lack of it. */
  lemma StoringRaisesExactlyWhen(w: World, s: Stage, id: RowId)
    requires !s.raised
    ensures var n := |s.session.operations|;
            var m := NextOperation(w, n);
            && (FailedAndLogged(w, s, id).raised <==> FailsTwice(w, n))
            && (StoredAndLogged(w, s, id).raised <==>
                FailsTwice(w, n) || FailsTwice(w, m) || (w.fails(m) && w.orphaned(m + 1)))
  {
  }

  /** A commit between batches is sent exactly in an open transaction, and ends the stage
      exactly when both attempts fail. */
  lemma CommitRaisesExactlyWhen(w: World, s: Stage)
    requires !s.raised
    ensures var n := |s.session.operations|;
            var open := s.session.pending != [] || w.reading(n);
            && (CommitProgress(w, s).raised <==> open && FailsTwice(w, n))
            && |CommitProgress(w, s).session.operations| == if open then NextOperation(w, n) else n
  {
  }

  // ---------------------------------------------------------------------
  // Who is admitted
  // ---------------------------------------------------------------------

  lemma {:induction false} SelectedAreEligible(raws: seq<RawJob>, decisions: seq<Decision>, id: RowId)
    requires |raws| == |decisions|
    ensures id in Selected(raws, decisions)
            <==> exists i :: 0 <= i < |raws| && raws[i].id == id && decisions[i].reason.NormalizationEligible?
  {
    if raws != [] {
      SelectedAreEligible(raws[1..], decisions[1..], id);
      if id in Selected(raws[1..], decisions[1..]) {
        var i :| 0 <= i < |raws[1..]| && raws[1..][i].id == id && decisions[1..][i].reason.NormalizationEligible?;
        assert raws[i + 1].id == id;
      }
      if exists i :: 0 <= i < |raws| && raws[i].id == id && decisions[i].reason.NormalizationEligible? {
        var i :| 0 <= i < |raws| && raws[i].id == id && decisions[i].reason.NormalizationEligible?;
        assert i > 0 ==> raws[1..][i - 1].id == id;
      }
    }
  }

  /** Behind the gate a stage works on exactly the raw jobs that have an identity, come first
      with it, and are new to the backend and to the stored rows. */
  lemma AdmittedExactlyWhenNew(known: Known, raws: seq<RawJob>, id: RowId)
    ensures id in Admitted(Some(known), raws) <==>
            exists i :: 0 <= i < |raws| && raws[i].id == id && KeyOf(raws[i]).Some? && IsFirst(raws, i)
                        && IdentityOf(raws[i]) !in known.backend && !IsStoredAs(known.rows, IdentityOf(raws[i]))
  {
    hide KeyOf, IdentityOf, IsFirst, IsStoredAs, Decisions, Selected;
    OneDecisionEach(known, raws);
    SelectedAreEligible(raws, Decisions(known, raws), id);
    forall i | 0 <= i < |raws|
      ensures Decisions(known, raws)[i].reason.NormalizationEligible?
              <==> KeyOf(raws[i]).Some? && IsFirst(raws, i) && IdentityOf(raws[i]) !in known.backend
                   && !IsStoredAs(known.rows, IdentityOf(raws[i]))
    {
      EligibleExactlyWhenNew(known, raws, i);
    }
  }
}
