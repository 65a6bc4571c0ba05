/** Who may execute: no blind re-execution and fencing, over every run. */
module Ownership {
  import opened Basics
  import opened LedgerTypes
  import opened Operations
  import opened LedgerInvariant
  import opened LedgerSteps
  import opened Runs

  // ---------------------------------------------------------------- effects on the record table

  predicate SameRow(r: Record, r': Record) {
    SameKey(r, r') && r'.generation == r.generation && r'.fingerprint == r.fingerprint
  }

  /** A row that nobody owns any more, with everything it tells about how it ended. */
  predicate EndedAs(r: Record, r': Record, state: RecordState, result: Option<Json>, error: Option<Text>, at: Time) {
    && SameRow(r, r')
    && r'.state == state && r'.result == result && r'.error == error
    && r'.owner.None? && r'.lease.None? && r'.updatedAt == at
  }

  /** What the end of an owner's hold leaves of its row. */
  predicate Retired(r: Record, how: How, r': Record)
    requires how != ByFail
  {
    match how
    case ByComplete(result, at) => EndedAs(r, r', Completed, Some(result), None, at)
    case ByMarkUnknown(error, at) => EndedAs(r, r', Unknown, None, Some(error), at)
    case ByRecordUnknown(error, at) => EndedAs(r, r', Unknown, None, Some(error), at)
    case ByLeaseExpiry(at) =>
      r.lease.Some? && r.lease.value <= at && EndedAs(r, r', Unknown, None, Some(OwnerLeaseExpired), at)
  }

  /** What a reconciliation leaves of its row. */
  predicate ResolvedAs(r: Record, to: HeadState, result: Option<Json>, at: Time, r': Record) {
    match to
    case UNKNOWN => false
    case MANUAL_REVIEW => EndedAs(r, r', ManualReview, None, Some(ManualReconciliationRequired), at)
    case CONFIRMED_NOT_APPLIED => EndedAs(r, r', NotApplied, None, Some(ConfirmedNotAppliedText), at)
    case CONFIRMED_SUCCEEDED =>
      if result.Some? then EndedAs(r, r', Completed, result, None, at)
      else EndedAs(r, r', AppliedNoResult, None, Some(NoResultReconstructed), at)
  }

  predicate OwnedBy(r: Record, token: Token) {
    r.state == Pending && r.owner == Some(token)
  }

  /** The record table changes exactly as the effect says. */
  ghost predicate Explains(rs: map<ExecId, Record>, e: Effect, rs': map<ExecId, Record>) {
    match e
    case NoEffect => rs' == rs
    case Claimed(ns, k, id, token, fp, until, at) =>
      && id !in rs && id in rs' && rs' == rs[id := rs'[id]]
      && rs'[id] == Record(ns, k, rs'[id].generation, fp, Pending, None, None, Some(token), Some(until), at)
      && (forall j | j in rs && HasKey(rs[j], ns, k) :: rs[j].state == NotApplied)
    case Settled(token, id, how) =>
      && id in rs && OwnedBy(rs[id], token)
      && (if how == ByFail then rs' == rs - {id}
          else id in rs' && rs' == rs[id := rs'[id]] && Retired(rs[id], how, rs'[id]))
    case Renewed(token, id, until, at) =>
      id in rs && OwnedBy(rs[id], token) && rs' == rs[id := rs[id].(lease := Some(until), updatedAt := at)]
    case Pruned(ids, cutoff) =>
      && ids <= rs.Keys && rs' == rs - ids
      && (forall id | id in ids :: rs[id].state == Completed && rs[id].updatedAt < cutoff)
    case Reconciled(id, to, result, at) =>
      && id in rs && rs[id].state in {Unknown, ManualReview}
      && id in rs' && rs' == rs[id := rs'[id]] && ResolvedAs(rs[id], to, result, at, rs'[id])
  }

  lemma InsertOwnerExplained(t: Tables, q: AcquireArgs, generation: int)
    requires InsertOwner(t, q, generation).Done?
    requires forall j | j in t.records && HasKey(t.records[j], q.namespace, q.key) :: t.records[j].state == NotApplied
    ensures var r := InsertOwner(t, q, generation);
            && r.value == Owner(NewExecId(q), generation)
            && Explains(t.records, Claimed(q.namespace, q.key, NewExecId(q), q.token, q.fingerprint,
                                           q.now + q.leaseSeconds, q.now), r.state.records)
  {
  }

  /** When the newest row of a key is confirmed not applied, so is every row of the key. */
  lemma NewestNotAppliedMeansAll(rs: map<ExecId, Record>, ns: Namespace, k: Key)
    requires RecordsOk(rs)
    requires Latest(rs, ns, k).Some? ==> rs[Latest(rs, ns, k).value].state == NotApplied
    ensures forall j | j in rs && HasKey(rs[j], ns, k) :: rs[j].state == NotApplied
  {
    forall j | j in rs && HasKey(rs[j], ns, k) ensures rs[j].state == NotApplied {
      LatestFindsARow(rs, ns, k, j);
      var id := Latest(rs, ns, k).value;
      assert j != id ==> Ordered(rs[j], rs[id]);
    }
  }

  lemma AcquireExplained(t: Tables, q: AcquireArgs)
    requires RecordsOk(t.records)
    ensures Explains(t.records, EffectOf(t, AcquireCall(q)), Apply(t, AcquireCall(q)).records)
  {
    var found := Latest(t.records, q.namespace, q.key);
    assert found.Some? ==> RowChecks(t.records[found.value]);
    if found.Some? ==> t.records[found.value].state == NotApplied {
      NewestNotAppliedMeansAll(t.records, q.namespace, q.key);
      AcquireNewExplained(t, q);
    } else {
      AcquireOldExplained(t, q, found.value);
    }
  }

  /** The key is unused or its newest row is confirmed not applied. */
  lemma AcquireNewExplained(t: Tables, q: AcquireArgs)
    requires var found := Latest(t.records, q.namespace, q.key);
             found.Some? ==> t.records[found.value].state == NotApplied
    requires forall j | j in t.records && HasKey(t.records[j], q.namespace, q.key) :: t.records[j].state == NotApplied
    ensures Explains(t.records, EffectOf(t, AcquireCall(q)), Apply(t, AcquireCall(q)).records)
  {
    var found := Latest(t.records, q.namespace, q.key);
    var generation := if found.None? then 1 else t.records[found.value].generation + 1;
    if InsertOwner(t, q, generation).Done? {
      InsertOwnerExplained(t, q, generation);
    }
  }

  /** The newest row of the key is in any other state. */
  lemma AcquireOldExplained(t: Tables, q: AcquireArgs, id: ExecId)
    requires Latest(t.records, q.namespace, q.key) == Some(id)
    requires RowChecks(t.records[id]) && t.records[id].state != NotApplied
    ensures Explains(t.records, EffectOf(t, AcquireCall(q)), Apply(t, AcquireCall(q)).records)
  {
    var r := t.records[id];
    if r.state == Pending && r.lease.Some? && r.lease.value <= q.now && ExpireOwner(t, id, q).Done? {
      ExpiryExplained(t, id, q);
    }
  }

  lemma ExpiryExplained(t: Tables, id: ExecId, q: AcquireArgs)
    requires id in t.records && RowChecks(t.records[id]) && t.records[id].state == Pending && ExpireOwner(t, id, q).Done?
    requires t.records[id].lease.value <= q.now
    ensures t.records[id].owner.Some?
    ensures ExpireOwner(t, id, q).value == OutcomeUnknown(id)
    ensures Explains(t.records, Settled(t.records[id].owner.value, id, ByLeaseExpiry(q.now)), ExpireOwner(t, id, q).state.records)
  {
  }

  lemma RecoveryExplained(t: Tables, s: Step)
    requires Inv(t) && s.RecoverCall?
    ensures Explains(t.records, EffectOf(t, s), Apply(t, s).records)
  {
    var draw := Draws(s.outboxId, s.reviewId);
    var r := RecoverUnfinished(t, s.execId, s.now, s.evidenceFits, draw);
    if r.Done? && r.state != t {
      var closed := RecoverUnfolds(t, s.execId, s.now, s.evidenceFits, draw);
      var id, open := s.execId, OpenStarts(t.events[s.execId]);
      CloseAllKeeps(t, id, s.now, draw);
      var t1 := CloseAll(t, id, open, s.now, draw).state;
      CloseAllLeavesRecords(t, id, open, s.now, draw);
      ReviewResolves(t1, id, s.now, |open|, draw(0));
    }
  }

  lemma CloseAllLeavesRecords(t: Tables, id: ExecId, open: seq<Event>, now: Time, draw: nat -> OutboxId)
    requires id in t.heads && id in t.events && (forall e | e in open :: e.payload.Started?)
    requires CloseAll(t, id, open, now, draw).Done?
    ensures CloseAll(t, id, open, now, draw).state.records == t.records
    decreases |open|
  {
    if open != [] {
      var s := open[0].payload;
      var r := AppendAttempt(t, id, ExpiryOf(s), now, AttemptRecoveryRecorded, ExpiryDetail(t.heads[id], s), draw(|open|));
      CloseAllLeavesRecords(r.state, id, open[1..], now, draw);
    }
  }

  /** A committed transition moves exactly its own row, from an unresolved state. */
  lemma TransitionMovesRow(t: Tables, id: ExecId, tr: Transition, ty: AuditType, d: Detail, drawn: OutboxId)
    requires id in t.heads && id in t.events && AppendTransition(t, id, tr, ty, d, drawn).Done?
    ensures var r := AppendTransition(t, id, tr, ty, d, drawn);
            Explains(t.records, Reconciled(id, tr.newState, tr.result, tr.at), r.state.records)
  {
  }

  lemma ReviewResolves(t: Tables, id: ExecId, now: Time, unfinished: nat, drawn: OutboxId)
    requires id in t.heads && id in t.events && Review(t, id, now, unfinished, drawn).Done?
    ensures Explains(t.records, Reconciled(id, MANUAL_REVIEW, None, now), Review(t, id, now, unfinished, drawn).state.records)
  {
    var tr := RecoveryTransition(now, unfinished);
    TransitionMovesRow(t, id, tr, RecoveryTransitionRecorded, ReviewDetail(tr), drawn);
  }

  lemma TransitionExplained(t: Tables, q: TransitionArgs)
    ensures Explains(t.records, EffectOf(t, TransitionCall(q)), Apply(t, TransitionCall(q)).records)
  {
    if CompareAndAppendTransition(t, q).Done? {
      TransitionMovesRow(t, q.execId, TransitionOf(q), AuditTypeOf(q), DetailOf(q), q.outboxId);
    }
  }

  lemma OwnerCallExplained(t: Tables, s: Step)
    requires s.CompleteCall? || s.FailCall? || s.MarkUnknownCall? || s.RenewCall? || s.PruneCall? || s.RecordUnknownCall?
    ensures Explains(t.records, EffectOf(t, s), Apply(t, s).records)
  {
  }

  lemma OtherCallExplained(t: Tables, s: Step)
    requires s.PrepareCall? || s.CreateUnknownCall? || s.StartCall? || s.FinishCall? || IsDeliveryMark(s)
    ensures EffectOf(t, s) == NoEffect && Apply(t, s).records == t.records
  {
  }

  /** Every transaction changes the record table exactly as its effect says. */
  lemma StepExplained(t: Tables, s: Step)
    requires Inv(t)
    ensures Explains(t.records, EffectOf(t, s), Apply(t, s).records)
  {
    if s.AcquireCall? {
      AcquireExplained(t, s.q);
    } else if s.RecoverCall? {
      RecoveryExplained(t, s);
    } else if s.TransitionCall? {
      TransitionExplained(t, s.tq);
    } else if s.PrepareCall? || s.CreateUnknownCall? || s.StartCall? || s.FinishCall? || IsDeliveryMark(s) {
      OtherCallExplained(t, s);
    } else {
      OwnerCallExplained(t, s);
    }
  }

  // ---------------------------------------------------------------- histories

  datatype World = World(tables: Tables, hist: seq<Effect>)

  const BEGINNING := World(EMPTY, [])

  ghost function Next(w: World, s: Step): World {
    World(Apply(w.tables, s), w.hist + [EffectOf(w.tables, s)])
  }

  /** A newly drawn owner token was never drawn before. */
  predicate FreshToken(hist: seq<Effect>, s: Step) {
    s.AcquireCall? ==> forall i | 0 <= i < |hist| && hist[i].Claimed? :: hist[i].token != s.q.token
  }

  ghost function RunFrom(w: World, steps: seq<Step>): World
    decreases |steps|
  {
    if steps == [] then w else RunFrom(Next(w, steps[0]), steps[1..])
  }

  ghost predicate FreshRun(w: World, steps: seq<Step>)
    decreases |steps|
  {
    steps == [] || (FreshToken(w.hist, steps[0]) && FreshRun(Next(w, steps[0]), steps[1..]))
  }

  /** What ends the exclusive right of a claim: its own failure, a prune of its completed row, or
      the confirmation that its effect was not applied. */
  predicate Releases(e: Effect, c: Effect)
    requires c.Claimed?
  {
    || e == Settled(c.token, c.execId, ByFail)
    || (e.Pruned? && c.execId in e.ids)
    || (e.Reconciled? && e.execId == c.execId && e.to == CONFIRMED_NOT_APPLIED)
  }

  predicate ReleasedBetween(hist: seq<Effect>, i: nat, j: nat)
    requires i < |hist| && j <= |hist| && hist[i].Claimed?
  {
    exists k | i < k < j :: Releases(hist[k], hist[i])
  }

  predicate SameKeyClaims(c: Effect, d: Effect) {
    c.Claimed? && d.Claimed? && c.namespace == d.namespace && c.key == d.key
  }

  /** The row of an unreleased claim still stands between the key and any new owner. */
  predicate Guards(rs: map<ExecId, Record>, c: Effect)
    requires c.Claimed?
  {
    && c.execId in rs
    && var r := rs[c.execId];
    && HasKey(r, c.namespace, c.key)
    && r.state != NotApplied
    && (r.state == Pending ==> r.owner == Some(c.token))
  }

  ghost predicate ClaimsGuarded(rs: map<ExecId, Record>, hist: seq<Effect>) {
    forall i | 0 <= i < |hist| && hist[i].Claimed? :: ReleasedBetween(hist, i, |hist|) || Guards(rs, hist[i])
  }

  ghost predicate ClaimsSeparated(hist: seq<Effect>) {
    forall i, j | 0 <= i < j < |hist| && SameKeyClaims(hist[i], hist[j]) :: ReleasedBetween(hist, i, j)
  }

  ghost predicate ClaimedBy(hist: seq<Effect>, token: Token, id: ExecId) {
    exists i :: 0 <= i < |hist| && hist[i].Claimed? && hist[i].token == token && hist[i].execId == id
  }

  /** Tokens are claimed once and settled at most once, and a settled token owns nothing. */
  ghost predicate Fenced(rs: map<ExecId, Record>, hist: seq<Effect>) {
    && (forall id | id in rs && rs[id].owner.Some? :: ClaimedBy(hist, rs[id].owner.value, id))
    && (forall i, j | 0 <= i < j < |hist| && hist[i].Claimed? && hist[j].Claimed? :: hist[i].token != hist[j].token)
    && (forall i, j | 0 <= i < j < |hist| && hist[i].Settled? && hist[j].Settled? :: hist[i].token != hist[j].token)
    && (forall i | 0 <= i < |hist| && hist[i].Settled? :: ClaimedBy(hist, hist[i].token, hist[i].execId))
    && (forall i, id | 0 <= i < |hist| && hist[i].Settled? && id in rs :: rs[id].owner != Some(hist[i].token))
  }

  lemma ReleaseStays(hist: seq<Effect>, e: Effect, i: nat, j: nat)
    requires i < |hist| && j <= |hist| && hist[i].Claimed? && ReleasedBetween(hist, i, j)
    ensures ReleasedBetween(hist + [e], i, j) && ReleasedBetween(hist + [e], i, |hist| + 1)
  {
    var k :| i < k < j && Releases(hist[k], hist[i]);
    assert (hist + [e])[k] == hist[k] && (hist + [e])[i] == hist[i];
  }

  /** A claim keeps its guard until an effect releases it. */
  lemma GuardOrRelease(rs: map<ExecId, Record>, e: Effect, rs': map<ExecId, Record>, c: Effect)
    requires c.Claimed? && Guards(rs, c) && Explains(rs, e, rs')
    ensures Guards(rs', c) || Releases(e, c)
  {
  }

  lemma ClaimsStayGuarded(rs: map<ExecId, Record>, hist: seq<Effect>, e: Effect, rs': map<ExecId, Record>)
    requires ClaimsGuarded(rs, hist) && Explains(rs, e, rs')
    ensures ClaimsGuarded(rs', hist + [e])
  {
    var hist' := hist + [e];
    forall i | 0 <= i < |hist'| && hist'[i].Claimed?
      ensures ReleasedBetween(hist', i, |hist'|) || Guards(rs', hist'[i])
    {
      if i < |hist| {
        if ReleasedBetween(hist, i, |hist|) {
          ReleaseStays(hist, e, i, |hist|);
        } else {
          GuardOrRelease(rs, e, rs', hist[i]);
          assert hist'[|hist|] == e;
        }
      }
    }
  }

  lemma ClaimsStaySeparated(rs: map<ExecId, Record>, hist: seq<Effect>, e: Effect, rs': map<ExecId, Record>)
    requires ClaimsGuarded(rs, hist) && ClaimsSeparated(hist) && Explains(rs, e, rs')
    ensures ClaimsSeparated(hist + [e])
  {
    var hist' := hist + [e];
    forall i, j | 0 <= i < j < |hist'| && SameKeyClaims(hist'[i], hist'[j]) ensures ReleasedBetween(hist', i, j) {
      if j == |hist| {
        assert !Guards(rs, hist[i]);
      }
      ReleaseStays(hist, e, i, j);
    }
  }

  lemma ClaimsExtend(hist: seq<Effect>, e: Effect, token: Token, id: ExecId)
    requires ClaimedBy(hist, token, id)
    ensures ClaimedBy(hist + [e], token, id)
  {
    var i :| 0 <= i < |hist| && hist[i].Claimed? && hist[i].token == token && hist[i].execId == id;
    assert (hist + [e])[i] == hist[i];
  }

  /** One token owns at most one row. */
  lemma OneRowPerToken(rs: map<ExecId, Record>, hist: seq<Effect>, a: ExecId, b: ExecId)
    requires Fenced(rs, hist) && a in rs && b in rs && rs[a].owner.Some? && rs[a].owner == rs[b].owner
    ensures a == b
  {
    assert ClaimedBy(hist, rs[a].owner.value, a) && ClaimedBy(hist, rs[b].owner.value, b);
  }

  lemma OwnersStayClaimed(rs: map<ExecId, Record>, hist: seq<Effect>, e: Effect, rs': map<ExecId, Record>)
    requires Fenced(rs, hist) && Explains(rs, e, rs')
    ensures forall id | id in rs' && rs'[id].owner.Some? :: ClaimedBy(hist + [e], rs'[id].owner.value, id)
  {
    forall id | id in rs' && rs'[id].owner.Some? ensures ClaimedBy(hist + [e], rs'[id].owner.value, id) {
      if e.Claimed? && id == e.execId {
        assert (hist + [e])[|hist|] == e;
      } else {
        ClaimsExtend(hist, e, rs'[id].owner.value, id);
      }
    }
  }

  lemma FencingStays(rs: map<ExecId, Record>, hist: seq<Effect>, e: Effect, rs': map<ExecId, Record>)
    requires Fenced(rs, hist) && Explains(rs, e, rs')
    requires e.Claimed? ==> forall i | 0 <= i < |hist| && hist[i].Claimed? :: hist[i].token != e.token
    ensures Fenced(rs', hist + [e])
  {
    var hist' := hist + [e];
    OwnersStayClaimed(rs, hist, e, rs');
    forall i | 0 <= i < |hist'| && hist'[i].Settled? ensures ClaimedBy(hist', hist'[i].token, hist'[i].execId) {
      ClaimsExtend(hist, e, hist'[i].token, hist'[i].execId);
    }
    forall i, id | 0 <= i < |hist'| && hist'[i].Settled? && id in rs' ensures rs'[id].owner != Some(hist'[i].token) {
      if i == |hist| {
        if id in rs && rs[id].owner == Some(e.token) {
          OneRowPerToken(rs, hist, id, e.execId);
        }
      } else if e.Claimed? && id == e.execId {
        assert ClaimedBy(hist, hist[i].token, hist[i].execId);
      }
    }
  }

  // ---------------------------------------------------------------- theorems over runs

  ghost predicate WorldOk(w: World) {
    && Inv(w.tables)
    && ClaimsGuarded(w.tables.records, w.hist)
    && ClaimsSeparated(w.hist)
    && Fenced(w.tables.records, w.hist)
  }

  lemma NextKeeps(w: World, s: Step)
    requires WorldOk(w) && FreshToken(w.hist, s)
    ensures WorldOk(Next(w, s))
  {
    ApplyKeeps(w.tables, s);
    StepExplained(w.tables, s);
    ClaimsAreFresh(w.tables, w.hist, s);
    HistoryStays(w.tables.records, w.hist, EffectOf(w.tables, s), Apply(w.tables, s).records);
  }

  lemma ClaimsAreFresh(t: Tables, hist: seq<Effect>, s: Step)
    requires FreshToken(hist, s)
    ensures NewToken(hist, EffectOf(t, s))
  {
  }

  predicate NewToken(hist: seq<Effect>, e: Effect) {
    e.Claimed? ==> forall i | 0 <= i < |hist| && hist[i].Claimed? :: hist[i].token != e.token
  }

  lemma HistoryStays(rs: map<ExecId, Record>, hist: seq<Effect>, e: Effect, rs': map<ExecId, Record>)
    requires ClaimsGuarded(rs, hist) && ClaimsSeparated(hist) && Fenced(rs, hist)
    requires Explains(rs, e, rs') && NewToken(hist, e)
    ensures ClaimsGuarded(rs', hist + [e]) && ClaimsSeparated(hist + [e]) && Fenced(rs', hist + [e])
  {
    ClaimsStayGuarded(rs, hist, e, rs');
    ClaimsStaySeparated(rs, hist, e, rs');
    FencingStays(rs, hist, e, rs');
  }

  lemma RunKeeps(w: World, steps: seq<Step>)
    requires WorldOk(w) && FreshRun(w, steps)
    ensures WorldOk(RunFrom(w, steps))
    decreases |steps|
  {
    if steps != [] {
      NextKeeps(w, steps[0]);
      RunKeeps(Next(w, steps[0]), steps[1..]);
    }
  }

  /** The history lists the owners of the pending rows, one claim each, by distinct tokens. */
  ghost predicate ListsOwners(rs: map<ExecId, Record>, hist: seq<Effect>) {
    && (forall i | 0 <= i < |hist| ::
          hist[i].Claimed? && Guards(rs, hist[i]) && rs[hist[i].execId].state == Pending
          && rs[hist[i].execId].lease == Some(hist[i].until))
    && (forall i, j | 0 <= i < j < |hist| :: hist[i].token != hist[j].token)
    && (forall id | id in rs && rs[id].owner.Some? :: ClaimedBy(hist, rs[id].owner.value, id))
  }

  /** Where a run may start: a database without heads or audit events, empty or migrated. */
  ghost predicate IsStart(w: World) {
    && w.tables == EMPTY.(records := w.tables.records)
    && RecordsOk(w.tables.records)
    && ListsOwners(w.tables.records, w.hist)
  }

  lemma BeginningIsStart()
    ensures IsStart(BEGINNING)
  {
  }

  lemma StartIsOk(w: World)
    requires IsStart(w)
    ensures WorldOk(w)
  {
    var rs, hist := w.tables.records, w.hist;
    forall i, j | 0 <= i < j < |hist| ensures !SameKeyClaims(hist[i], hist[j]) {
      var a, b := hist[i].execId, hist[j].execId;
      assert a != b;
      assert SameKey(rs[a], rs[b]) ==> Ordered(rs[a], rs[b]);
    }
  }

  lemma EveryRun(w: World, steps: seq<Step>)
    requires IsStart(w) && FreshRun(w, steps)
    ensures WorldOk(RunFrom(w, steps))
  {
    StartIsOk(w);
    RunKeeps(w, steps);
  }

  /** No blind re-execution: between two owner claims of one key the earlier one was released. */
  lemma NoBlindReexecution(w: World, steps: seq<Step>, i: nat, j: nat) returns (k: nat)
    requires IsStart(w) && FreshRun(w, steps)
    requires i < j < |RunFrom(w, steps).hist|
    requires SameKeyClaims(RunFrom(w, steps).hist[i], RunFrom(w, steps).hist[j])
    ensures i < k < j && Releases(RunFrom(w, steps).hist[k], RunFrom(w, steps).hist[i])
  {
    EveryRun(w, steps);
    var hist := RunFrom(w, steps).hist;
    assert ReleasedBetween(hist, i, j);
    k :| i < k < j && Releases(hist[k], hist[i]);
  }

  // ---------------------------------------------------------------- rows and keys

  /** A row stands between its key and any new owner. */
  predicate Blocks(rs: map<ExecId, Record>, id: ExecId, ns: Namespace, k: Key) {
    id in rs && HasKey(rs[id], ns, k) && rs[id].state != NotApplied
  }

  /** What takes it out of the way: a failure, a prune, or the confirmation that it was not applied. */
  predicate Frees(e: Effect, id: ExecId) {
    || (e.Settled? && e.execId == id && e.how == ByFail)
    || (e.Pruned? && id in e.ids)
    || (e.Reconciled? && e.execId == id && e.to == CONFIRMED_NOT_APPLIED)
  }

  predicate ClaimsKey(e: Effect, ns: Namespace, k: Key) {
    e.Claimed? && e.namespace == ns && e.key == k
  }

  lemma BlocksOrFrees(rs: map<ExecId, Record>, e: Effect, rs': map<ExecId, Record>, id: ExecId, ns: Namespace, k: Key)
    requires Blocks(rs, id, ns, k) && Explains(rs, e, rs')
    ensures !ClaimsKey(e, ns, k) && (Blocks(rs', id, ns, k) || Frees(e, id))
  {
  }

  /** As long as a row that is not confirmed not applied has not been freed, nobody claims its key. */
  lemma {:induction false} TakenUntilFreed(w: World, steps: seq<Step>, id: ExecId, ns: Namespace, k: Key, j: nat) returns (i: nat)
    requires WorldOk(w) && FreshRun(w, steps) && Blocks(w.tables.records, id, ns, k)
    requires |w.hist| <= j < |RunFrom(w, steps).hist| && ClaimsKey(RunFrom(w, steps).hist[j], ns, k)
    ensures |w.hist| <= i < j && Frees(RunFrom(w, steps).hist[i], id)
    decreases |steps|
  {
    var e, next := EffectOf(w.tables, steps[0]), Next(w, steps[0]);
    StepExplained(w.tables, steps[0]);
    BlocksOrFrees(w.tables.records, e, next.tables.records, id, ns, k);
    HistoryGrows(next, steps[1..]);
    i := |w.hist|;
    assert RunFrom(w, steps).hist[i] == e;
    if !Frees(e, id) {
      NextKeeps(w, steps[0]);
      i := TakenUntilFreed(next, steps[1..], id, ns, k, j);
    }
  }

  /** Fencing: at most one settlement ever takes effect for one owner token ... */
  lemma SettledOnce(w: World, steps: seq<Step>, i: nat, j: nat)
    requires IsStart(w) && FreshRun(w, steps)
    requires var hist := RunFrom(w, steps).hist;
             i < |hist| && j < |hist| && hist[i].Settled? && hist[j].Settled? && hist[i].token == hist[j].token
    ensures i == j
  {
    EveryRun(w, steps);
  }

  /** ... and afterwards no call presenting that token changes any table. */
  lemma FencedOut(w: World, steps: seq<Step>, i: nat, c: Claim, s: Step)
    requires IsStart(w) && FreshRun(w, steps)
    requires var hist := RunFrom(w, steps).hist;
             i < |hist| && hist[i].Settled? && c.token == Some(hist[i].token)
    requires (s.CompleteCall? || s.FailCall? || s.MarkUnknownCall? || s.RenewCall? || s.RecordUnknownCall?) && s.claim == c
    ensures Apply(RunFrom(w, steps).tables, s) == RunFrom(w, steps).tables
  {
    EveryRun(w, steps);
    assert !Holds(RunFrom(w, steps).tables.records, c);
  }

  // ---------------------------------------------------------------- histories and calls

  /** The k-th entry of a history is the effect of the k-th call on the tables it met. */
  lemma {:induction false} HistoryRecordsCalls(w: World, steps: seq<Step>, k: nat)
    requires k < |steps|
    ensures |RunFrom(w, steps).hist| == |w.hist| + |steps|
    ensures RunFrom(w, steps).hist[|w.hist| + k] == EffectOf(RunFrom(w, steps[..k]).tables, steps[k])
    decreases |steps|
  {
    var w1 := Next(w, steps[0]);
    HistoryGrows(w1, steps[1..]);
    if k > 0 {
      HistoryRecordsCalls(w1, steps[1..], k - 1);
      assert steps[..k][1..] == steps[1..][..k - 1];
      assert RunFrom(w, steps[..k]) == RunFrom(w1, steps[..k][1..]);
    } else {
      assert RunFrom(w, steps[..0]) == w;
    }
  }

  lemma HistoryGrows(w: World, steps: seq<Step>)
    ensures w.hist <= RunFrom(w, steps).hist
    ensures |RunFrom(w, steps).hist| == |w.hist| + |steps|
    decreases |steps|
  {
    if steps != [] {
      HistoryGrows(Next(w, steps[0]), steps[1..]);
    }
  }

  // ---------------------------------------------------------------- reconciled executions

  predicate Touches(e: Effect, id: ExecId) {
    match e
    case Claimed(_, _, j, _, _, _, _) => j == id
    case Settled(_, j, _) => j == id
    case Renewed(_, j, _, _) => j == id
    case Pruned(ids, _) => id in ids
    case _ => false
  }

  /** An execution with a head is never again claimed, settled, renewed or pruned. */
  lemma HeadsAreOutOfReach(t: Tables, s: Step, id: ExecId)
    requires Inv(t) && id in t.heads
    ensures !Touches(EffectOf(t, s), id)
  {
    PruneSparesHeads(t, s, id);
    StepExplained(t, s);
    HeadsAreSpared(t, EffectOf(t, s), Apply(t, s).records, id);
  }

  lemma PruneSparesHeads(t: Tables, s: Step, id: ExecId)
    requires id in t.heads
    ensures EffectOf(t, s).Pruned? ==> id !in EffectOf(t, s).ids
  {
  }

  lemma HeadsAreSpared(t: Tables, e: Effect, rs': map<ExecId, Record>, id: ExecId)
    requires LinksOk(t) && id in t.heads && Explains(t.records, e, rs') && (e.Pruned? ==> id !in e.ids)
    ensures !Touches(e, id)
  {
    assert Agrees(t.heads[id], t.records[id]);
  }

  lemma ReconciledHasHead(t: Tables, s: Step)
    requires EffectOf(t, s).Reconciled?
    ensures EffectOf(t, s).execId in t.heads
  {
  }

  lemma HeadsStay(t: Tables, s: Step, id: ExecId)
    requires Inv(t) && id in t.heads
    ensures id in Apply(t, s).heads
  {
    assert id in t.events;
    LogsGrow(t, s, id);
    ApplyKeeps(t, s);
  }

  ghost predicate ReconciledForGood(heads: map<ExecId, Head>, hist: seq<Effect>) {
    && (forall i | 0 <= i < |hist| && hist[i].Reconciled? :: hist[i].execId in heads)
    && (forall i, j | 0 <= i < j < |hist| && hist[i].Reconciled? :: !Touches(hist[j], hist[i].execId))
  }

  lemma ReconciledStaysOneStep(w: World, s: Step)
    requires Inv(w.tables) && ReconciledForGood(w.tables.heads, w.hist)
    ensures ReconciledForGood(Next(w, s).tables.heads, Next(w, s).hist)
  {
    var e, heads' := EffectOf(w.tables, s), Apply(w.tables, s).heads;
    forall id | id in w.tables.heads ensures id in heads' && !Touches(e, id) {
      HeadsStay(w.tables, s, id);
      HeadsAreOutOfReach(w.tables, s, id);
    }
    if e.Reconciled? {
      ReconciledHasHead(w.tables, s);
    }
    ReconciledExtends(w.tables.heads, w.hist, e, heads');
  }

  lemma ReconciledExtends(heads: map<ExecId, Head>, hist: seq<Effect>, e: Effect, heads': map<ExecId, Head>)
    requires ReconciledForGood(heads, hist)
    requires forall id | id in heads :: id in heads' && !Touches(e, id)
    requires e.Reconciled? ==> e.execId in heads
    ensures ReconciledForGood(heads', hist + [e])
  {
  }

  lemma ReconciledStays(w: World, steps: seq<Step>)
    requires WorldOk(w) && FreshRun(w, steps) && ReconciledForGood(w.tables.heads, w.hist)
    ensures ReconciledForGood(RunFrom(w, steps).tables.heads, RunFrom(w, steps).hist)
    decreases |steps|
  {
    if steps != [] {
      NextKeeps(w, steps[0]);
      ReconciledStaysOneStep(w, steps[0]);
      ReconciledStays(Next(w, steps[0]), steps[1..]);
    }
  }

  /** Once reconciliation has moved an execution, nothing claims, settles, renews or prunes it. */
  lemma ReconciledIsForGood(w: World, steps: seq<Step>, i: nat, j: nat)
    requires IsStart(w) && FreshRun(w, steps)
    requires i < j < |RunFrom(w, steps).hist| && RunFrom(w, steps).hist[i].Reconciled?
    ensures !Touches(RunFrom(w, steps).hist[j], RunFrom(w, steps).hist[i].execId)
  {
    StartIsOk(w);
    ReconciledStays(w, steps);
  }
}
