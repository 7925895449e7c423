/** The gate before normalization (src/modules/eligibility/resolver.py). Case folding is
    that of the ASCII letters. */
module Eligibility {
  import opened Texts
  import opened Wrappers

  /** A primary key. Only its identity matters. */
  type RowId = int

  datatype Reason =
    | NormalizationEligible | DuplicateInScrapeScope | ExistingBackend | ExistingNormalizedSynced
    | ExistingNormalizedUnsynced | MissingIdentity | IdentityConflict | ReprocessRequired

  datatype SyncState = Sent | Failed | Pending | DeadLetter | Other

  /** The columns of a raw job; either half of its identity may be missing. */
  datatype RawJob = RawJob(id: RowId, sourcePlatform: Option<string>, externalId: Option<string>,
                           payloadHash: Option<int>)

  /** A stored normalized job, with the columns exactly as they are stored. */
  datatype Row = Row(id: RowId, sourcePlatform: string, externalId: string, payloadHash: int)

  datatype Decision = Decision(
    rawJobId: RowId, reason: Reason, identityKey: Option<string>, payloadHash: Option<int>,
    backendJobId: Option<string>, normalizedJobId: Option<RowId>, syncState: Option<SyncState>)

  type Identity = (string, string)

  // ---------------------------------------------------------------------
  // Identities
  // ---------------------------------------------------------------------

  function NormalizeKey(value: Option<string>): string {
    match value
    case None => ""
    case Some(s) => Lower(Strip(s))
  }

  function IdentityOf(raw: RawJob): Identity {
    (NormalizeKey(raw.sourcePlatform), NormalizeKey(raw.externalId))
  }

  function IdentityKey(identity: Identity): Option<string> {
    if identity.0 == "" || identity.1 == "" then None else Some(identity.0 + ":" + identity.1)
  }

  function KeyOf(raw: RawJob): Option<string> {
    IdentityKey(IdentityOf(raw))
  }

  // ---------------------------------------------------------------------
  // What is already there
  // ---------------------------------------------------------------------

  /** What the gate is given beside the raw jobs: the backend's jobs, the stored
      normalized jobs, the state of their latest sync event, and its two settings. */
  datatype Known = Known(
    backend: map<Identity, Option<string>>, rows: seq<Row>, latestSync: map<RowId, SyncState>,
    allowReprocess: bool, maxSyncAttempts: int)

  function Sources(raws: seq<RawJob>): set<string> {
    set raw | raw in raws && NormalizeKey(raw.sourcePlatform) != "" :: NormalizeKey(raw.sourcePlatform)
  }

  function ExternalIds(raws: seq<RawJob>): set<string> {
    set raw | raw in raws && NormalizeKey(raw.externalId) != "" :: NormalizeKey(raw.externalId)
  }

  /** The query compares the normalized halves with the columns as stored; the index is
      keyed by the normalized columns, and a later row replaces an earlier one. */
  function NormalizedIndex(rows: seq<Row>, sources: set<string>, externalIds: set<string>): map<Identity, Row> {
    if rows == [] then map[]
    else
      var index, row := NormalizedIndex(rows[..|rows| - 1], sources, externalIds), rows[|rows| - 1];
      if row.sourcePlatform in sources && row.externalId in externalIds
      then index[(NormalizeKey(Some(row.sourcePlatform)), NormalizeKey(Some(row.externalId))) := row]
      else index
  }

  function PayloadChanged(raw: RawJob, row: Row): bool {
    raw.payloadHash.Some? && raw.payloadHash.value != row.payloadHash
  }

  /** The attempts of a sync event are not looked up: a failed one counts as one attempt. */
  function AttemptCount(state: SyncState): int {
    if state.Failed? then 1 else 0
  }

  function ReasonForRow(known: Known, raw: RawJob, row: Row): Reason {
    var changed := known.allowReprocess && PayloadChanged(raw, row);
    if row.id !in known.latestSync then
      if changed then ReprocessRequired else ExistingNormalizedSynced
    else
      var state := known.latestSync[row.id];
      match state
      case Sent => if changed then ReprocessRequired else ExistingNormalizedSynced
      case Failed =>
        if AttemptCount(state) < known.maxSyncAttempts then ExistingNormalizedUnsynced else IdentityConflict
      case Pending => ExistingNormalizedUnsynced
      case DeadLetter => ExistingNormalizedUnsynced
      case Other => IdentityConflict
  }

  function StringOrNone(s: Option<string>): Option<string> {
    if s.Some? && Strip(s.value) != "" then s else None
  }

  /** The decision on one raw job, given the identity keys seen before it. */
  function Decide(known: Known, index: map<Identity, Row>, seen: set<string>, raw: RawJob): Decision {
    var identity, key := IdentityOf(raw), KeyOf(raw);
    var plain := Decision(raw.id, MissingIdentity, key, raw.payloadHash, None, None, None);
    if key.None? then plain
    else if key.value in seen then plain.(reason := DuplicateInScrapeScope)
    else if identity in known.backend then
      plain.(reason := ExistingBackend, backendJobId := StringOrNone(known.backend[identity]))
    else if identity !in index then plain.(reason := NormalizationEligible)
    else
      var row := index[identity];
      plain.(reason := ReasonForRow(known, raw, row), normalizedJobId := Some(row.id),
             syncState := if row.id in known.latestSync then Some(known.latestSync[row.id]) else None)
  }

  function Keys(raws: seq<RawJob>): set<string> {
    set raw | raw in raws && KeyOf(raw).Some? :: KeyOf(raw).value
  }

  function DecideEach(known: Known, index: map<Identity, Row>, raws: seq<RawJob>): seq<Decision> {
    if raws == [] then []
    else
      var front, last := raws[..|raws| - 1], raws[|raws| - 1];
      DecideEach(known, index, front) + [Decide(known, index, Keys(front), last)]
  }

  function Decisions(known: Known, raws: seq<RawJob>): seq<Decision> {
    DecideEach(known, NormalizedIndex(known.rows, Sources(raws), ExternalIds(raws)), raws)
  }

  class EligibilityResolver {
    /** The stored decisions, by raw job. */
    var decisions: map<RowId, Decision>

    constructor ()
      ensures decisions == map[]
    {
      decisions := map[];
    }

    method Upsert(decision: Decision) returns (record: Decision)
      modifies this
      ensures decisions == old(decisions)[decision.rawJobId := decision] && record == decision
    {
      decisions := decisions[decision.rawJobId := decision];
      record := decision;
    }

    method NormalizedByIdentity(rows: seq<Row>, sources: set<string>, externalIds: set<string>)
      returns (index: map<Identity, Row>)
      ensures index == NormalizedIndex(rows, sources, externalIds)
    {
      index := map[];
      if sources == {} || externalIds == {} {
        NothingAsked(rows, sources, externalIds);
        return;
      }
      var i := 0;
      while i < |rows|
        invariant 0 <= i <= |rows| && index == NormalizedIndex(rows[..i], sources, externalIds)
      {
        assert rows[..i + 1][..i] == rows[..i];
        var row := rows[i];
        if row.sourcePlatform in sources && row.externalId in externalIds {
          index := index[(NormalizeKey(Some(row.sourcePlatform)), NormalizeKey(Some(row.externalId))) := row];
        }
        i := i + 1;
      }
      assert rows[..i] == rows;
    }

    method ResolveForRawJobs(known: Known, rawJobs: seq<RawJob>) returns (made: seq<Decision>)
      modifies this
      ensures made == Decisions(known, rawJobs)
      ensures decisions == Stored(old(decisions), made)
    {
      hide Decide, NormalizeKey, IdentityKey, KeyOf, DecideEach, Keys, Stored, NormalizedIndex;
      NothingDecided(known, old(decisions));
      made := [];
      if rawJobs == [] {
        return;
      }
      var index := NormalizedByIdentity(known.rows, Sources(rawJobs), ExternalIds(rawJobs));
      var seenInScope: set<string> := {};
      var i := 0;
      while i < |rawJobs|
        invariant 0 <= i <= |rawJobs|
        invariant seenInScope == Keys(rawJobs[..i])
        invariant made == DecideEach(known, index, rawJobs[..i])
        invariant decisions == Stored(old(decisions), made)
      {
        var rawJob := rawJobs[i];
        assert rawJobs[..i + 1] == rawJobs[..i] + [rawJob];
        DecideSnoc(known, index, rawJobs[..i], rawJob);
        var decision := DecideOne(known, index, seenInScope, rawJob);
        var record := Upsert(decision);
        StoredSnoc(old(decisions), made, record);
        made := made + [record];
        var key := KeyOf(rawJob);
        if key.Some? {
          seenInScope := seenInScope + {key.value};
        }
        i := i + 1;
      }
      assert rawJobs[..i] == rawJobs;
    }

    /** The branches of the loop, in their order. */
    method DecideOne(known: Known, index: map<Identity, Row>, seenInScope: set<string>, rawJob: RawJob)
      returns (decision: Decision)
      ensures decision == Decide(known, index, seenInScope, rawJob)
    {
      var sourcePlatform := NormalizeKey(rawJob.sourcePlatform);
      var externalId := NormalizeKey(rawJob.externalId);
      var key := IdentityKey((sourcePlatform, externalId));
      if key.None? {
        return Decision(rawJob.id, MissingIdentity, None, rawJob.payloadHash, None, None, None);
      }
      if key.value in seenInScope {
        return Decision(rawJob.id, DuplicateInScrapeScope, key, rawJob.payloadHash, None, None, None);
      }
      if (sourcePlatform, externalId) in known.backend {
        var hit := known.backend[(sourcePlatform, externalId)];
        return Decision(rawJob.id, ExistingBackend, key, rawJob.payloadHash, StringOrNone(hit), None, None);
      }
      if (sourcePlatform, externalId) !in index {
        return Decision(rawJob.id, NormalizationEligible, key, rawJob.payloadHash, None, None, None);
      }
      var normalized := index[(sourcePlatform, externalId)];
      if normalized.id !in known.latestSync {
        var reason := if known.allowReprocess && PayloadChanged(rawJob, normalized)
                      then ReprocessRequired else ExistingNormalizedSynced;
        return Decision(rawJob.id, reason, key, rawJob.payloadHash, None, Some(normalized.id), None);
      }
      var latest := known.latestSync[normalized.id];
      var reason := IdentityConflict;
      if latest == Sent {
        reason := if known.allowReprocess && PayloadChanged(rawJob, normalized)
                  then ReprocessRequired else ExistingNormalizedSynced;
      } else if latest == Failed {
        reason := if AttemptCount(latest) < known.maxSyncAttempts
                  then ExistingNormalizedUnsynced else IdentityConflict;
      } else if latest == Pending || latest == DeadLetter {
        reason := ExistingNormalizedUnsynced;
      }
      decision := Decision(rawJob.id, reason, key, rawJob.payloadHash, None, Some(normalized.id), Some(latest));
    }
  }

  function Stored(before: map<RowId, Decision>, made: seq<Decision>): map<RowId, Decision> {
    if made == [] then before
    else
      var last := made[|made| - 1];
      Stored(before, made[..|made| - 1])[last.rawJobId := last]
  }

  lemma NothingDecided(known: Known, before: map<RowId, Decision>)
    ensures Decisions(known, []) == [] && Keys([]) == {} && Stored(before, []) == before
    ensures forall index :: DecideEach(known, index, []) == []
  {
  }

  lemma StoredSnoc(before: map<RowId, Decision>, made: seq<Decision>, d: Decision)
    ensures Stored(before, made + [d]) == Stored(before, made)[d.rawJobId := d]
  {
    assert (made + [d])[..|made|] == made;
  }

  lemma {:induction false} NothingAsked(rows: seq<Row>, sources: set<string>, externalIds: set<string>)
    requires sources == {} || externalIds == {}
    ensures NormalizedIndex(rows, sources, externalIds) == map[]
  {
    if rows != [] {
      NothingAsked(rows[..|rows| - 1], sources, externalIds);
    }
  }

  lemma DecideSnoc(known: Known, index: map<Identity, Row>, raws: seq<RawJob>, raw: RawJob)
    ensures DecideEach(known, index, raws + [raw])
            == DecideEach(known, index, raws) + [Decide(known, index, Keys(raws), raw)]
    ensures Keys(raws + [raw]) == Keys(raws) + (if KeyOf(raw).Some? then {KeyOf(raw).value} else {})
  {
    hide Decide, NormalizeKey, IdentityKey, KeyOf;
    assert (raws + [raw])[..|raws|] == raws;
    assert raw in raws + [raw] && forall r | r in raws :: r in raws + [raw];
  }

  // ---------------------------------------------------------------------
  // Normalizing keys
  // ---------------------------------------------------------------------

  lemma LowerCharKeeps(c: char)
    ensures LowerChar(LowerChar(c)) == LowerChar(c)
    ensures IsSpace(LowerChar(c)) <==> IsSpace(c)
  {
  }

  lemma LowerTwice(s: string)
    ensures Lower(Lower(s)) == Lower(s)
  {
    forall i | 0 <= i < |s| ensures Lower(Lower(s))[i] == Lower(s)[i] {
      LowerCharKeeps(s[i]);
    }
  }

  /** Normalizing a normalized half of an identity changes nothing. */
  lemma NormalizingTwiceIsOnce(value: Option<string>)
    ensures NormalizeKey(Some(NormalizeKey(value))) == NormalizeKey(value)
  {
    if value.Some? {
      var t := Strip(value.value);
      StripStrips(value.value);
      assert IsStripped(Lower(t)) by {
        if t != "" {
          LowerCharKeeps(t[0]);
          LowerCharKeeps(t[|t| - 1]);
        }
      }
      StrippedStays(Lower(t));
      LowerTwice(t);
    }
  }

  lemma {:induction false} StripsToNothing(s: string)
    ensures Strip(s) == "" <==> IsBlank(s)
  {
    hide IsSpace;
    if s != "" {
      assert s == [s[0]] + s[1..];
      BlankCons(s[0], s[1..]);
      if IsSpace(s[0]) {
        StripsToNothing(s[1..]);
      } else {
        KeepsItsStart(s);
      }
    }
  }

  lemma {:induction false} KeepsItsStart(s: string)
    requires s != "" && !IsSpace(s[0])
    ensures TrimRight(s) != ""
    decreases |s|
  {
    if IsSpace(s[|s| - 1]) {
      KeepsItsStart(s[..|s| - 1]);
    }
  }

  // ---------------------------------------------------------------------
  // Keys and identities
  // ---------------------------------------------------------------------

  /** The identity whose key this text is, split at the colon at i. */
  function SplitAt(key: string, i: nat): Identity
    requires i < |key|
  {
    (key[..i], key[i + 1..])
  }

  /** No colon but the separator leaves text on both of its sides. */
  predicate OneColonSplits(identity: Identity) {
    && (forall i | 0 < i < |identity.0| :: identity.0[i] != ':')
    && (forall j | 0 <= j < |identity.1| - 1 :: identity.1[j] != ':')
  }

  ghost predicate KeyIsUnique(identity: Identity) {
    forall other: Identity | IdentityKey(other) == IdentityKey(identity) :: other == identity
  }

  lemma KeySplits(identity: Identity, key: string)
    requires IdentityKey(identity) == Some(key)
    ensures |identity.0| < |key| && key[|identity.0|] == ':' && identity == SplitAt(key, |identity.0|)
  {
    var split := SplitAt(key, |identity.0|);
    assert split.0 == identity.0 && split.1 == identity.1;
  }

  /** Two identities with one key are put together from the same text around different colons. */
  lemma SameKeyOtherColon(a: Identity, b: Identity)
    requires IdentityKey(a).Some? && IdentityKey(a) == IdentityKey(b) && a != b
    ensures !OneColonSplits(a)
  {
    var key := IdentityKey(a).value;
    KeySplits(a, key);
    KeySplits(b, key);
    assert |a.0| != |b.0|;
    if |b.0| < |a.0| {
      assert a.0[|b.0|] == ':';
    } else {
      assert a.1[|b.0| - |a.0| - 1] == ':';
    }
  }

  lemma OtherSplit(identity: Identity, key: string, i: nat)
    requires IdentityKey(identity) == Some(key) && 0 < i < |key| - 1 && key[i] == ':' && i != |identity.0|
    ensures !KeyIsUnique(identity)
  {
    var other := SplitAt(key, i);
    assert IdentityKey(other) == Some(key) && other != identity by {
      assert key == key[..i] + ":" + key[i + 1..];
    }
  }

  /** The key that duplicates in scope are told by belongs to no other identity exactly when
      no colon of the identity itself could be taken for the separator. */
  lemma KeyIsUniqueExactlyWhen(identity: Identity)
    requires IdentityKey(identity).Some?
    ensures KeyIsUnique(identity) <==> OneColonSplits(identity)
  {
    var key := IdentityKey(identity).value;
    if OneColonSplits(identity) {
      forall other: Identity | IdentityKey(other) == IdentityKey(identity) ensures other == identity {
        if other != identity {
          SameKeyOtherColon(identity, other);
        }
      }
    } else if i :| 0 < i < |identity.0| && identity.0[i] == ':' {
      assert key[i] == ':';
      OtherSplit(identity, key, i);
    } else {
      var j :| 0 <= j < |identity.1| - 1 && identity.1[j] == ':';
      assert key[|identity.0| + 1 + j] == ':';
      OtherSplit(identity, key, |identity.0| + 1 + j);
    }
  }

  // ---------------------------------------------------------------------
  // What is stored
  // ---------------------------------------------------------------------

  function LastMade(made: seq<Decision>, id: RowId): Option<Decision> {
    if made == [] then None
    else if made[|made| - 1].rawJobId == id then Some(made[|made| - 1])
    else LastMade(made[..|made| - 1], id)
  }

  /** Behind the gate the last decision made for a raw job is the stored one, and decisions on
      other raw jobs are as they were. */
  lemma {:induction false} LastDecisionIsStored(before: map<RowId, Decision>, made: seq<Decision>, id: RowId)
    ensures var after, last := Stored(before, made), LastMade(made, id);
            && (id in after <==> last.Some? || id in before)
            && (id in after ==> after[id] == if last.Some? then last.value else before[id])
  {
    if made != [] {
      LastDecisionIsStored(before, made[..|made| - 1], id);
    }
  }

  // ---------------------------------------------------------------------
  // Main results
  // ---------------------------------------------------------------------

  /** A row whose columns are this identity, letter by letter. */
  predicate IsStoredAs(rows: seq<Row>, identity: Identity) {
    exists i | 0 <= i < |rows| :: rows[i].sourcePlatform == identity.0 && rows[i].externalId == identity.1
  }

  lemma StoredSomewhere(rows: seq<Row>, row: Row, identity: Identity)
    ensures IsStoredAs(rows + [row], identity)
            <==> IsStoredAs(rows, identity) || (row.sourcePlatform == identity.0 && row.externalId == identity.1)
  {
    var all := rows + [row];
    if IsStoredAs(rows, identity) {
      var i :| 0 <= i < |rows| && rows[i].sourcePlatform == identity.0 && rows[i].externalId == identity.1;
      assert all[i] == rows[i];
    }
    assert all[|rows|] == row;
  }

  /** Among identities that are asked for, the index holds exactly those that some row
      stores in normalized form. */
  lemma {:induction false} IndexHoldsStoredIdentities(rows: seq<Row>, sources: set<string>, externalIds: set<string>,
                                                      identity: Identity)
    requires forall s | s in sources :: NormalizeKey(Some(s)) == s
    requires forall e | e in externalIds :: NormalizeKey(Some(e)) == e
    requires identity.0 in sources && identity.1 in externalIds
    ensures var index := NormalizedIndex(rows, sources, externalIds);
            && (identity in index <==> IsStoredAs(rows, identity))
            && (identity in index ==> (index[identity].sourcePlatform, index[identity].externalId) == identity)
  {
    if rows == [] {
      assert !IsStoredAs(rows, identity);
    } else {
      hide NormalizeKey, IsStoredAs;
      var front, last := rows[..|rows| - 1], rows[|rows| - 1];
      assert rows == front + [last];
      IndexHoldsStoredIdentities(front, sources, externalIds, identity);
      StoredSomewhere(front, last, identity);
    }
  }

  lemma {:induction false} DecidedInTurn(known: Known, index: map<Identity, Row>, raws: seq<RawJob>, i: nat)
    requires i < |raws|
    ensures |DecideEach(known, index, raws)| == |raws|
    ensures DecideEach(known, index, raws)[i] == Decide(known, index, Keys(raws[..i]), raws[i])
    decreases |raws|
  {
    hide Decide, Keys;
    var front, last := raws[..|raws| - 1], raws[|raws| - 1];
    if i < |front| {
      DecidedInTurn(known, index, front, i);
      assert front[..i] == raws[..i];
    } else if front != [] {
      DecidedInTurn(known, index, front, 0);
    }
  }

  lemma AskedForIsNormalized(raws: seq<RawJob>)
    ensures forall s | s in Sources(raws) :: NormalizeKey(Some(s)) == s
    ensures forall e | e in ExternalIds(raws) :: NormalizeKey(Some(e)) == e
    ensures forall raw | raw in raws && KeyOf(raw).Some? ::
              IdentityOf(raw).0 in Sources(raws) && IdentityOf(raw).1 in ExternalIds(raws)
  {
    hide NormalizeKey;
    forall s | s in Sources(raws) ensures NormalizeKey(Some(s)) == s {
      var raw :| raw in raws && NormalizeKey(raw.sourcePlatform) == s;
      NormalizingTwiceIsOnce(raw.sourcePlatform);
    }
    forall e | e in ExternalIds(raws) ensures NormalizeKey(Some(e)) == e {
      var raw :| raw in raws && NormalizeKey(raw.externalId) == e;
      NormalizingTwiceIsOnce(raw.externalId);
    }
  }

  /** The first raw job in scope with its identity key. */
  predicate IsFirst(raws: seq<RawJob>, i: nat)
    requires i < |raws|
  {
    forall j | 0 <= j < i :: KeyOf(raws[j]) != KeyOf(raws[i])
  }

  lemma FirstMeansUnseen(raws: seq<RawJob>, i: nat)
    requires i < |raws| && KeyOf(raws[i]).Some?
    ensures KeyOf(raws[i]).value in Keys(raws[..i]) <==> !IsFirst(raws, i)
  {
    hide KeyOf;
    var key := KeyOf(raws[i]);
    if key.value in Keys(raws[..i]) {
      var raw :| raw in raws[..i] && KeyOf(raw) == key;
      var j :| 0 <= j < i && raws[j] == raw;
    }
    if !IsFirst(raws, i) {
      var j :| 0 <= j < i && KeyOf(raws[j]) == key;
      assert raws[..i][j] == raws[j] && raws[j] in raws[..i];
    }
  }

  /** One decision per raw job, in order; a raw job is eligible exactly when it has an
      identity, is the first in scope with its key, and neither the backend nor a stored
      normalized job has that identity. */
  lemma EligibleExactlyWhenNew(known: Known, raws: seq<RawJob>, i: nat)
    requires i < |raws|
    ensures |Decisions(known, raws)| == |raws|
    ensures var d := Decisions(known, raws)[i];
            && d.rawJobId == raws[i].id && d.identityKey == KeyOf(raws[i])
            && (d.reason.NormalizationEligible? <==>
                  && KeyOf(raws[i]).Some?
                  && IsFirst(raws, i)
                  && IdentityOf(raws[i]) !in known.backend
                  && !IsStoredAs(known.rows, IdentityOf(raws[i])))
  {
    hide NormalizeKey, NormalizedIndex, Sources, ExternalIds, IsStoredAs, IsFirst, Keys;
    var index := NormalizedIndex(known.rows, Sources(raws), ExternalIds(raws));
    DecidedInTurn(known, index, raws, i);
    AskedForIsNormalized(raws);
    assert raws[i] in raws;
    if KeyOf(raws[i]).Some? {
      IndexHoldsStoredIdentities(known.rows, Sources(raws), ExternalIds(raws), IdentityOf(raws[i]));
      FirstMeansUnseen(raws, i);
    }
  }

  /** The last row whose columns are this identity, letter by letter. */
  function LastStored(rows: seq<Row>, identity: Identity): Option<Row> {
    if rows == [] then None
    else
      var last := rows[|rows| - 1];
      if last.sourcePlatform == identity.0 && last.externalId == identity.1 then Some(last)
      else LastStored(rows[..|rows| - 1], identity)
  }

  lemma {:induction false} IndexHoldsTheLastRow(rows: seq<Row>, sources: set<string>, externalIds: set<string>,
                                                identity: Identity)
    requires forall s | s in sources :: NormalizeKey(Some(s)) == s
    requires forall e | e in externalIds :: NormalizeKey(Some(e)) == e
    requires identity.0 in sources && identity.1 in externalIds
    ensures var index := NormalizedIndex(rows, sources, externalIds);
            LastStored(rows, identity) == if identity in index then Some(index[identity]) else None
  {
    hide NormalizeKey;
    if rows != [] {
      IndexHoldsTheLastRow(rows[..|rows| - 1], sources, externalIds, identity);
    }
  }

  /** What is said of a job that some row stores, by the state of that row's last sync: the
      backend has it, as far as is known, unless its payload has changed and may be processed
      again; or it waits to be sent; or it is stuck. */
  predicate ToldByRow(known: Known, raw: RawJob, row: Row, d: Decision) {
    var state := if row.id in known.latestSync then Some(known.latestSync[row.id]) else None;
    var changed := raw.payloadHash.Some? && raw.payloadHash.value != row.payloadHash;
    && d.normalizedJobId == Some(row.id) && d.syncState == state && d.backendJobId.None?
    && (d.reason.ReprocessRequired? <==> (state.None? || state == Some(Sent)) && known.allowReprocess && changed)
    && (d.reason.ExistingNormalizedSynced? <==>
        (state.None? || state == Some(Sent)) && !(known.allowReprocess && changed))
    && (d.reason.ExistingNormalizedUnsynced? <==>
        state == Some(Pending) || state == Some(DeadLetter) || (state == Some(Failed) && known.maxSyncAttempts > 1))
    && (d.reason.IdentityConflict? <==>
        state == Some(Other) || (state == Some(Failed) && known.maxSyncAttempts <= 1))
  }

  /** Every decision gives the first reason that applies: no identity, a key seen before in
      scope, a job of the backend, a stored row; with the backend's job or the last stored row
      and the state of its sync. */
  lemma DecisionTellsWhy(known: Known, raws: seq<RawJob>, i: nat)
    requires i < |raws|
    ensures |Decisions(known, raws)| == |raws|
    ensures var d, raw := Decisions(known, raws)[i], raws[i];
            var identity, row := IdentityOf(raw), LastStored(known.rows, IdentityOf(raw));
            && d.payloadHash == raw.payloadHash
            && (d.reason.MissingIdentity? <==> KeyOf(raw).None?)
            && (d.reason.DuplicateInScrapeScope? <==> KeyOf(raw).Some? && !IsFirst(raws, i))
            && (d.reason.ExistingBackend? <==>
                KeyOf(raw).Some? && IsFirst(raws, i) && identity in known.backend)
            && (d.reason.ExistingBackend? ==>
                  d.backendJobId == match known.backend[identity]
                                    case None => None
                                    case Some(jobId) => if IsBlank(jobId) then None else Some(jobId))
            && (KeyOf(raw).Some? && IsFirst(raws, i) && identity !in known.backend ==>
                  if row.None? then d.reason.NormalizationEligible? && d.normalizedJobId.None?
                  else ToldByRow(known, raw, row.value, d))
  {
    hide NormalizeKey, NormalizedIndex, Sources, ExternalIds, IsFirst, Keys, LastStored, IsBlank, Strip;
    var index := NormalizedIndex(known.rows, Sources(raws), ExternalIds(raws));
    DecidedInTurn(known, index, raws, i);
    AskedForIsNormalized(raws);
    assert raws[i] in raws;
    if KeyOf(raws[i]).Some? {
      IndexHoldsTheLastRow(known.rows, Sources(raws), ExternalIds(raws), IdentityOf(raws[i]));
      FirstMeansUnseen(raws, i);
      if IdentityOf(raws[i]) in known.backend && known.backend[IdentityOf(raws[i])].Some? {
        StripsToNothing(known.backend[IdentityOf(raws[i])].value);
      }
    }
  }

  lemma FirstIsUnique(raws: seq<RawJob>, i: nat, j: nat)
    requires i < |raws| && j < |raws| && IsFirst(raws, i) && IsFirst(raws, j)
    requires KeyOf(raws[i]) == KeyOf(raws[j])
    ensures i == j
  {
    hide KeyOf;
  }

  /** At most one raw job in scope is eligible per identity key. */
  lemma OneEligiblePerKey(known: Known, raws: seq<RawJob>, i: nat, j: nat)
    requires i < |raws| && j < |raws|
    requires |Decisions(known, raws)| == |raws|
    requires Decisions(known, raws)[i].reason.NormalizationEligible?
    requires Decisions(known, raws)[j].reason.NormalizationEligible?
    requires KeyOf(raws[i]) == KeyOf(raws[j])
    ensures i == j
  {
    hide KeyOf, IdentityOf, Decisions, IsFirst;
    EligibleExactlyWhenNew(known, raws, i);
    EligibleExactlyWhenNew(known, raws, j);
    FirstIsUnique(raws, i, j);
  }

  /** When the gate runs again over the same jobs with more stored rows, a job that was
      eligible is eligible again exactly when no row stores its identity trimmed and in
      lower case. */
  lemma EligibleAgainUnlessStoredNormalized(known: Known, more: seq<Row>, raws: seq<RawJob>, i: nat)
    requires i < |raws| && |Decisions(known, raws)| == |raws|
    requires Decisions(known, raws)[i].reason.NormalizationEligible?
    ensures var again := Decisions(known.(rows := known.rows + more), raws);
            && |again| == |raws|
            && (again[i].reason.NormalizationEligible? <==> !IsStoredAs(more, IdentityOf(raws[i])))
  {
    hide Decisions, KeyOf, IdentityOf, IsFirst;
    var later := known.(rows := known.rows + more);
    EligibleExactlyWhenNew(known, raws, i);
    EligibleExactlyWhenNew(later, raws, i);
    StoredInEither(known.rows, more, IdentityOf(raws[i]));
  }

  lemma StoredInEither(a: seq<Row>, b: seq<Row>, identity: Identity)
    ensures IsStoredAs(a + b, identity) <==> IsStoredAs(a, identity) || IsStoredAs(b, identity)
  {
    var all := a + b;
    if IsStoredAs(a, identity) {
      var i :| 0 <= i < |a| && a[i].sourcePlatform == identity.0 && a[i].externalId == identity.1;
      assert all[i] == a[i];
    }
    if IsStoredAs(b, identity) {
      var i :| 0 <= i < |b| && b[i].sourcePlatform == identity.0 && b[i].externalId == identity.1;
      assert all[|a| + i] == b[i];
    }
    if IsStoredAs(all, identity) {
      var i :| 0 <= i < |all| && all[i].sourcePlatform == identity.0 && all[i].externalId == identity.1;
      assert i < |a| ==> a[i] == all[i];
      assert i >= |a| ==> b[i - |a|] == all[i];
    }
  }

  /** A raw job stored under its own spelling passes the gate again exactly when that
      spelling is not already normalized. */
  lemma OwnSpellingMustBeNormalized(known: Known, raws: seq<RawJob>, i: nat, row: Row)
    requires i < |raws| && |Decisions(known, raws)| == |raws|
    requires Decisions(known, raws)[i].reason.NormalizationEligible?
    requires raws[i].sourcePlatform == Some(row.sourcePlatform) && raws[i].externalId == Some(row.externalId)
    ensures var again := Decisions(known.(rows := known.rows + [row]), raws);
            && |again| == |raws|
            && (again[i].reason.NormalizationEligible? <==>
                NormalizeKey(raws[i].sourcePlatform) != row.sourcePlatform
                || NormalizeKey(raws[i].externalId) != row.externalId)
  {
    hide Decisions, KeyOf, NormalizeKey, IsStoredAs;
    EligibleAgainUnlessStoredNormalized(known, [row], raws, i);
    StoredSomewhere([], row, IdentityOf(raws[i]));
    assert [] + [row] == [row];
    assert !IsStoredAs([], IdentityOf(raws[i])) by { StoredNowhere(IdentityOf(raws[i])); }
  }

  lemma StoredNowhere(identity: Identity)
    ensures !IsStoredAs([], identity)
  {
  }
}
