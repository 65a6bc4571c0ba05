/** What the idempotency store answers, and why: the reply to an acquire is settled by the last call
    that changed the key's row. */
module StoreAnswers {
  import opened Basics
  import opened LedgerTypes
  import opened Operations
  import opened LedgerInvariant
  import opened LedgerSteps
  import opened Runs
  import opened Ownership

  // ---------------------------------------------------------------- one acquire

  /** A recovery descriptor that comes with an acquire is for the same action and namespace. */
  predicate WellBound(q: AcquireArgs) {
    q.prepared.Some? ==>
      q.prepared.value.digest == q.fingerprint && q.prepared.value.namespace == NamespaceDigest(q.namespace)
  }

  predicate SameRequest(r: Record, q: AcquireArgs) {
    HasKey(r, q.namespace, q.key) && r.fingerprint == q.fingerprint
  }

  /** A row that is not confirmed not applied is the newest of its key. */
  lemma UnresolvedIsLatest(rs: map<ExecId, Record>, ns: Namespace, k: Key, id: ExecId)
    requires RecordsOk(rs) && Blocks(rs, id, ns, k)
    ensures Latest(rs, ns, k) == Some(id)
  {
    LatestFindsARow(rs, ns, k, id);
    var found := Latest(rs, ns, k).value;
    assert found != id ==> Ordered(rs[found], rs[id]);
  }

  /** The answer that a row calls for and that leaves every table as it is, if there is one. */
  function ReplyFor(r: Record, id: ExecId, now: Time): Option<AcquireReply> {
    match r.state
    case Completed => Some(Replay(r.result))
    case Unknown => Some(OutcomeUnknown(id))
    case ManualReview => Some(OutcomeUnknown(id))
    case AppliedNoResult => Some(AlreadyApplied)
    case Pending => if r.lease.Some? && now < r.lease.value then Some(InProgress) else None
    case NotApplied => None
  }

  /** The answer is the one that the key's row calls for. */
  lemma AnswersByState(t: Tables, q: AcquireArgs, id: ExecId)
    requires RecordsOk(t.records) && id in t.records && SameRequest(t.records[id], q) && WellBound(q)
    requires ReplyFor(t.records[id], id, q.now).Some?
    ensures Acquire(t, q) == Done(t, ReplyFor(t.records[id], id, q.now).value)
  {
    UnresolvedIsLatest(t.records, q.namespace, q.key, id);
  }

  /** One key, one request: any other fingerprint is refused, whatever state the key is in. */
  lemma OtherRequestsRefused(t: Tables, q: AcquireArgs, id: ExecId)
    requires RecordsOk(t.records) && id in t.records && HasKey(t.records[id], q.namespace, q.key)
    requires t.records[id].fingerprint != q.fingerprint
    ensures Acquire(t, q) == Refused(if WellBound(q) then FingerprintConflict else InvalidArgument)
  {
    LatestFindsARow(t.records, q.namespace, q.key, id);
    var found := Latest(t.records, q.namespace, q.key).value;
    assert found != id ==> Ordered(t.records[found], t.records[id]);
  }

  /** Nothing stands between the key and a new owner. */
  predicate Free(rs: map<ExecId, Record>, ns: Namespace, k: Key) {
    forall j | j in rs && HasKey(rs[j], ns, k) :: rs[j].state == NotApplied
  }

  ghost predicate IsNewestGeneration(rs: map<ExecId, Record>, ns: Namespace, k: Key, g: int) {
    && (forall j | j in rs && HasKey(rs[j], ns, k) :: rs[j].generation <= g)
    && (if g == 0 then forall j | j in rs :: !HasKey(rs[j], ns, k)
        else exists j :: j in rs && HasKey(rs[j], ns, k) && rs[j].generation == g)
  }

  /** The caller became the owner of the next generation, for as long as it asked. */
  ghost predicate Owns(t: Tables, q: AcquireArgs, a: Committed<AcquireReply>) {
    && a.Done? && a.value.Owner? && a.value.execId == NewExecId(q)
    && IsNewestGeneration(t.records, q.namespace, q.key, a.value.generation - 1)
    && a.state == t.(records := a.state.records, prepared := a.state.prepared)
    && a.state.records == t.records[NewExecId(q) :=
         Record(q.namespace, q.key, a.value.generation, q.fingerprint, Pending, None, None, Some(q.token),
                Some(q.now + q.leaseSeconds), q.now)]
    && a.state.prepared == if q.prepared.Some? then t.prepared[NewExecId(q) := q.prepared.value] else t.prepared
  }

  predicate Claimable(rs: map<ExecId, Record>, q: AcquireArgs) {
    Free(rs, q.namespace, q.key) && forall j | j in rs && HasKey(rs[j], q.namespace, q.key) :: rs[j].fingerprint == q.fingerprint
  }

  /** A free key goes to whoever asks, unless the execution id is taken. */
  lemma FreeKeyIsGranted(t: Tables, q: AcquireArgs)
    requires Inv(t) && Claimable(t.records, q) && WellBound(q)
    ensures if NewExecId(q) in t.records then Acquire(t, q) == Refused(IntegrityError) else Owns(t, q, Acquire(t, q))
  {
    var rs, found := t.records, Latest(t.records, q.namespace, q.key);
    if found.None? {
      NoLatestMeansUnused(rs, q.namespace, q.key);
      assert IsNewestGeneration(rs, q.namespace, q.key, 0);
    } else {
      assert RowChecks(rs[found.value]);
      assert IsNewestGeneration(rs, q.namespace, q.key, rs[found.value].generation);
    }
  }

  /** An owner whose lease has ended loses its row: the outcome becomes unknown, and a prepared action
      gets its head. */
  lemma EndedLeaseIsUnknown(t: Tables, q: AcquireArgs, id: ExecId)
    requires Inv(t) && id in t.records && SameRequest(t.records[id], q) && WellBound(q)
    requires t.records[id].state == Pending && t.records[id].lease.Some? && t.records[id].lease.value <= q.now
    ensures var a := Acquire(t, q);
            if id in t.prepared && q.outboxId in t.outbox then a == Refused(IntegrityError)
            else
              && a.Done? && a.value == OutcomeUnknown(id)
              && id in a.state.records && a.state.records == t.records[id := a.state.records[id]]
              && EndedAs(t.records[id], a.state.records[id], Unknown, None, Some(OwnerLeaseExpired), q.now)
              && (if id in t.prepared then Opened(t.(records := a.state.records), a.state, t.prepared[id], q.now, q.outboxId)
                  else a.state == t.(records := a.state.records))
  {
    assert Acquire(t, q) == ExpireOwner(t, id, q) by {
      UnresolvedIsLatest(t.records, q.namespace, q.key, id);
    }
    PendingHasNoHead(t, id);
    if id in t.prepared {
      var row := t.records[id].(state := Unknown, error := Some(OwnerLeaseExpired), owner := None, lease := None, updatedAt := q.now);
      assert RowChecks(t.records[id]);
      PendingUpdateKeeps(t, id, row);
      OpenHeadOpens(t.(records := t.records[id := row]), t.prepared[id], q.now, q.outboxId);
    }
  }

  /** A prune takes exactly the completed rows older than the cutoff that have no head, with their
      descriptors, and counts them. */
  lemma PruneTakesExactly(t: Tables, cutoff: Time)
    ensures var r := PruneCompleted(t, cutoff);
            && r.Done? && r.state == t.(records := r.state.records, prepared := r.state.prepared)
            && (forall id | id in t.records ::
                  id in r.state.records <==> t.records[id].state != Completed || t.records[id].updatedAt >= cutoff || id in t.heads)
            && (forall id | id in r.state.records :: id in t.records && r.state.records[id] == t.records[id])
            && (forall id | id in t.prepared ::
                  id in r.state.prepared <==> id in t.records ==> id in r.state.records)
            && (forall id | id in r.state.prepared :: id in t.prepared && r.state.prepared[id] == t.prepared[id])
            && r.value == |t.records| - |r.state.records|
  {
    var gone := Prunable(t, cutoff);
    assert (t.records - gone).Keys == t.records.Keys - gone;
    assert |t.records| == |t.records.Keys| && |t.records - gone| == |(t.records - gone).Keys|;
  }

  // ---------------------------------------------------------------- which calls change a row

  predicate PresentsClaim(s: Step) {
    s.CompleteCall? || s.FailCall? || s.MarkUnknownCall? || s.RenewCall? || s.RecordUnknownCall?
  }

  /** Which call can have had an effect. */
  ghost predicate ComesFrom(e: Effect, t: Tables, s: Step) {
    match e
    case NoEffect => true
    case Claimed(ns, k, _, _, _, _, _) => s.AcquireCall? && s.q.namespace == ns && s.q.key == k
    case Settled(token, id, how) =>
      if how.ByLeaseExpiry? then s.AcquireCall? && s.q.now == how.at && id in t.records && HasKey(t.records[id], s.q.namespace, s.q.key)
      else PresentsClaim(s) && s.claim.execId == id && s.claim.token == Some(token)
    case Renewed(token, id, _, _) => s.RenewCall? && s.claim.execId == id && s.claim.token == Some(token)
    case Pruned(_, cutoff) => s.PruneCall? && s.cutoff == cutoff
    case Reconciled(id, _, _, _) => (s.TransitionCall? && s.tq.execId == id) || (s.RecoverCall? && s.execId == id)
  }

  lemma AcquireEffect(t: Tables, q: AcquireArgs)
    ensures ComesFrom(EffectOf(t, AcquireCall(q)), t, AcquireCall(q))
  {
    var found := Latest(t.records, q.namespace, q.key);
  }

  lemma EffectComesFrom(t: Tables, s: Step)
    ensures ComesFrom(EffectOf(t, s), t, s)
  {
    if s.AcquireCall? {
      AcquireEffect(t, s.q);
    }
  }

  /** The call cannot change a row that stands like this: a pending row is safe from everyone but its
      owner while its lease runs, an unknown outcome from everything but its reconciliation, a
      completed row from everything but a prune of older ones, and the rest is final. */
  predicate Spares(s: Step, id: ExecId, r: Record) {
    match r.state
    case Pending =>
      && !(PresentsClaim(s) && s.claim.execId == id && s.claim.token == r.owner)
      && (s.AcquireCall? && HasKey(r, s.q.namespace, s.q.key) ==> r.lease.Some? && s.q.now < r.lease.value)
    case Unknown => !(s.TransitionCall? && s.tq.execId == id) && !(s.RecoverCall? && s.execId == id)
    case ManualReview => !(s.TransitionCall? && s.tq.execId == id) && !(s.RecoverCall? && s.execId == id)
    case Completed => s.PruneCall? ==> s.cutoff <= r.updatedAt
    case AppliedNoResult => true
    case NotApplied => true
  }

  lemma EffectSpares(t: Tables, e: Effect, s: Step, rs': map<ExecId, Record>, id: ExecId)
    requires id in t.records && Explains(t.records, e, rs') && ComesFrom(e, t, s) && Spares(s, id, t.records[id])
    ensures id in rs' && rs'[id] == t.records[id]
  {
  }

  lemma SparedRowStays(t: Tables, s: Step, id: ExecId)
    requires Inv(t) && id in t.records && Spares(s, id, t.records[id])
    ensures id in Apply(t, s).records && Apply(t, s).records[id] == t.records[id]
  {
    StepExplained(t, s);
    EffectComesFrom(t, s);
    EffectSpares(t, EffectOf(t, s), s, Apply(t, s).records, id);
  }

  predicate SparedBy(steps: seq<Step>, id: ExecId, r: Record) {
    forall j | 0 <= j < |steps| :: Spares(steps[j], id, r)
  }

  lemma {:induction false} SparedRowLasts(w: World, steps: seq<Step>, id: ExecId)
    requires WorldOk(w) && FreshRun(w, steps) && id in w.tables.records && SparedBy(steps, id, w.tables.records[id])
    ensures var rs := RunFrom(w, steps).tables.records; id in rs && rs[id] == w.tables.records[id]
    decreases |steps|
  {
    if steps != [] {
      SparedRowStays(w.tables, steps[0], id);
      NextKeeps(w, steps[0]);
      SparedRowLasts(Next(w, steps[0]), steps[1..], id);
    }
  }

  // ---------------------------------------------------------------- the last change answers

  /** The row that an effect leaves behind. */
  predicate Leaves(e: Effect, id: ExecId) {
    match e
    case NoEffect => false
    case Claimed(_, _, j, _, _, _, _) => j == id
    case Settled(_, j, how) => j == id && how != ByFail
    case Renewed(_, j, _, _) => j == id
    case Pruned(_, _) => false
    case Reconciled(j, to, _, _) => j == id && to != CONFIRMED_NOT_APPLIED
  }

  /** What an acquire is told as long as nothing has changed the row since. */
  ghost predicate Tells(e: Effect, id: ExecId, t: Tables, q: AcquireArgs) {
    var a := Acquire(t, q);
    match e
    case NoEffect => true
    case Claimed(_, _, _, _, _, until, _) => q.now < until ==> a == Done(t, InProgress)
    case Renewed(_, _, until, _) => q.now < until ==> a == Done(t, InProgress)
    case Settled(_, _, how) =>
      a == Done(t, if how.ByComplete? then Replay(Some(how.result)) else OutcomeUnknown(id))
    case Pruned(_, _) => true
    case Reconciled(_, to, result, _) =>
      a == Done(t, if to != CONFIRMED_SUCCEEDED then OutcomeUnknown(id)
                   else if result.Some? then Replay(result)
                   else AlreadyApplied)
  }

  lemma RowTells(rs: map<ExecId, Record>, e: Effect, rs': map<ExecId, Record>, id: ExecId, t: Tables, q: AcquireArgs)
    requires Explains(rs, e, rs') && Leaves(e, id) && id in rs' && SameRequest(rs'[id], q) && WellBound(q)
    requires RecordsOk(t.records) && id in t.records && t.records[id] == rs'[id]
    ensures Tells(e, id, t, q)
  {
    if ReplyFor(t.records[id], id, q.now).Some? {
      AnswersByState(t, q, id);
    }
  }

  /** After any call that leaves the key's row, and any later calls that spare it, an acquire is told
      what that call made of it. */
  lemma LastChangeAnswers(w: World, s: Step, later: seq<Step>, id: ExecId, q: AcquireArgs)
    requires WorldOk(w) && FreshToken(w.hist, s) && FreshRun(Next(w, s), later)
    requires Leaves(EffectOf(w.tables, s), id) && id in Next(w, s).tables.records
    requires SparedBy(later, id, Next(w, s).tables.records[id])
    requires SameRequest(Next(w, s).tables.records[id], q) && WellBound(q)
    ensures Tells(EffectOf(w.tables, s), id, RunFrom(Next(w, s), later).tables, q)
  {
    var w1 := Next(w, s);
    NextKeeps(w, s);
    RunKeeps(w1, later);
    SparedRowLasts(w1, later, id);
    StepExplained(w.tables, s);
    RowTells(w.tables.records, EffectOf(w.tables, s), w1.tables.records, id, RunFrom(w1, later).tables, q);
  }

  /** Exactly-once results: once a completion is accepted, every acquire of the same request replays
      its result, until a prune of rows that old. */
  lemma CompletedReplays(w: World, c: Claim, result: Json, now: Time, later: seq<Step>, q: AcquireArgs)
    requires WorldOk(w) && c.owner && Complete(w.tables, c, result, now).Done?
    requires FreshRun(Next(w, CompleteCall(c, result, now)), later)
    requires forall j | 0 <= j < |later| && later[j].PruneCall? :: later[j].cutoff <= now
    requires q.namespace == c.namespace && q.key == c.key && q.fingerprint == c.fingerprint && WellBound(q)
    ensures var t := RunFrom(Next(w, CompleteCall(c, result, now)), later).tables;
            Acquire(t, q) == Done(t, Replay(Some(result)))
  {
    var s := CompleteCall(c, result, now);
    StepExplained(w.tables, s);
    LastChangeAnswers(w, s, later, c.execId, q);
  }

  // ---------------------------------------------------------------- freed keys

  predicate Asks(s: Step, ns: Namespace, k: Key) {
    s.AcquireCall? && s.q.namespace == ns && s.q.key == k
  }

  lemma FreeingFrees(rs: map<ExecId, Record>, e: Effect, rs': map<ExecId, Record>, id: ExecId, q: AcquireArgs)
    requires RecordsOk(rs) && Explains(rs, e, rs') && Frees(e, id)
    requires id in rs && SameRequest(rs[id], q) && rs[id].state != NotApplied
    ensures Claimable(rs', q)
  {
    forall j | j in rs' && HasKey(rs'[j], q.namespace, q.key)
      ensures rs'[j].state == NotApplied && rs'[j].fingerprint == q.fingerprint
    {
      assert j != id ==> Ordered(rs[j], rs[id]);
    }
  }

  lemma ClaimableStays(t: Tables, s: Step, q: AcquireArgs)
    requires Inv(t) && Claimable(t.records, q) && !Asks(s, q.namespace, q.key)
    ensures Claimable(Apply(t, s).records, q)
  {
    StepExplained(t, s);
    EffectComesFrom(t, s);
    EffectKeepsClaimable(t.records, EffectOf(t, s), Apply(t, s).records, q);
  }

  lemma EffectKeepsClaimable(rs: map<ExecId, Record>, e: Effect, rs': map<ExecId, Record>, q: AcquireArgs)
    requires Explains(rs, e, rs') && Claimable(rs, q) && !ClaimsKey(e, q.namespace, q.key)
    ensures Claimable(rs', q)
  {
  }

  lemma {:induction false} ClaimableLasts(w: World, steps: seq<Step>, q: AcquireArgs)
    requires WorldOk(w) && FreshRun(w, steps) && Claimable(w.tables.records, q)
    requires forall j | 0 <= j < |steps| :: !Asks(steps[j], q.namespace, q.key)
    ensures Claimable(RunFrom(w, steps).tables.records, q)
    decreases |steps|
  {
    if steps != [] {
      ClaimableStays(w.tables, steps[0], q);
      NextKeeps(w, steps[0]);
      ClaimableLasts(Next(w, steps[0]), steps[1..], q);
    }
  }

  /** After a failure, a prune or the confirmation that the effect was not applied, the next acquire
      of the request becomes its owner. */
  lemma FreedKeyIsGranted(w: World, s: Step, later: seq<Step>, id: ExecId, q: AcquireArgs)
    requires WorldOk(w) && FreshToken(w.hist, s) && FreshRun(Next(w, s), later)
    requires Frees(EffectOf(w.tables, s), id)
    requires id in w.tables.records && SameRequest(w.tables.records[id], q) && w.tables.records[id].state != NotApplied
    requires WellBound(q) && forall j | 0 <= j < |later| :: !Asks(later[j], q.namespace, q.key)
    ensures var t := RunFrom(Next(w, s), later).tables;
            if NewExecId(q) in t.records then Acquire(t, q) == Refused(IntegrityError) else Owns(t, q, Acquire(t, q))
  {
    var w1 := Next(w, s);
    NextKeeps(w, s);
    RunKeeps(w1, later);
    StepExplained(w.tables, s);
    FreeingFrees(w.tables.records, EffectOf(w.tables, s), w1.tables.records, id, q);
    ClaimableLasts(w1, later, q);
    FreeKeyIsGranted(RunFrom(w1, later).tables, q);
  }

  // ---------------------------------------------------------------- leases over runs

  predicate Grants(e: Effect, token: Token) {
    (e.Claimed? || e.Renewed?) && e.token == token
  }

  /** Until when the owner with this token was last promised its row. */
  function PromisedUntil(hist: seq<Effect>, token: Token): Option<Time> {
    if hist == [] then None
    else
      var last := hist[|hist| - 1];
      if Grants(last, token) then Some(last.until) else PromisedUntil(hist[..|hist| - 1], token)
  }

  ghost predicate LeasesAsPromised(rs: map<ExecId, Record>, hist: seq<Effect>) {
    forall id | id in rs && rs[id].owner.Some? :: rs[id].lease == PromisedUntil(hist, rs[id].owner.value)
  }

  /** An expiry takes a row no earlier than its owner was promised. */
  predicate HonoursPromise(before: seq<Effect>, e: Effect) {
    e.Settled? && e.how.ByLeaseExpiry? ==>
      PromisedUntil(before, e.token).Some? && PromisedUntil(before, e.token).value <= e.how.at
  }

  ghost predicate PromisesHonoured(hist: seq<Effect>) {
    forall j | 0 <= j < |hist| :: HonoursPromise(hist[..j], hist[j])
  }

  lemma PromiseGrows(hist: seq<Effect>, e: Effect, token: Token)
    ensures PromisedUntil(hist + [e], token) == if Grants(e, token) then Some(e.until) else PromisedUntil(hist, token)
  {
    assert (hist + [e])[..|hist|] == hist;
  }

  lemma PromisesStay(rs: map<ExecId, Record>, hist: seq<Effect>, e: Effect, rs': map<ExecId, Record>)
    requires LeasesAsPromised(rs, hist) && Fenced(rs, hist) && Explains(rs, e, rs') && NewToken(hist, e)
    ensures LeasesAsPromised(rs', hist + [e]) && HonoursPromise(hist, e)
  {
    forall id | id in rs' && rs'[id].owner.Some? ensures rs'[id].lease == PromisedUntil(hist + [e], rs'[id].owner.value) {
      PromiseGrows(hist, e, rs'[id].owner.value);
      if e.Claimed? && id != e.execId {
        assert ClaimedBy(hist, rs[id].owner.value, id);
      } else if e.Renewed? && id != e.execId && rs[id].owner == Some(e.token) {
        OneRowPerToken(rs, hist, id, e.execId);
      }
    }
  }

  lemma {:induction false} ListedAreDue(hist: seq<Effect>, i: nat)
    requires i < |hist| && forall j | 0 <= j < |hist| :: hist[j].Claimed?
    requires forall j, k | 0 <= j < k < |hist| :: hist[j].token != hist[k].token
    ensures PromisedUntil(hist, hist[i].token) == Some(hist[i].until)
    decreases |hist|
  {
    if i < |hist| - 1 {
      ListedAreDue(hist[..|hist| - 1], i);
    }
  }

  lemma StartIsPromised(w: World)
    requires IsStart(w)
    ensures LeasesAsPromised(w.tables.records, w.hist) && PromisesHonoured(w.hist)
  {
    var rs, hist := w.tables.records, w.hist;
    forall id | id in rs && rs[id].owner.Some? ensures rs[id].lease == PromisedUntil(hist, rs[id].owner.value) {
      assert ClaimedBy(hist, rs[id].owner.value, id);
      var i :| 0 <= i < |hist| && hist[i].Claimed? && hist[i].token == rs[id].owner.value && hist[i].execId == id;
      ListedAreDue(hist, i);
    }
  }

  lemma {:induction false} PromisesLast(w: World, steps: seq<Step>)
    requires WorldOk(w) && FreshRun(w, steps) && LeasesAsPromised(w.tables.records, w.hist) && PromisesHonoured(w.hist)
    ensures var v := RunFrom(w, steps); LeasesAsPromised(v.tables.records, v.hist) && PromisesHonoured(v.hist)
    decreases |steps|
  {
    if steps != [] {
      var e, w1 := EffectOf(w.tables, steps[0]), Next(w, steps[0]);
      NextKeeps(w, steps[0]);
      StepExplained(w.tables, steps[0]);
      ClaimsAreFresh(w.tables, w.hist, steps[0]);
      PromisesStay(w.tables.records, w.hist, e, w1.tables.records);
      forall j | 0 <= j < |w1.hist| ensures HonoursPromise(w1.hist[..j], w1.hist[j]) {
        assert w1.hist[..j] == if j < |w.hist| then w.hist[..j] else w.hist;
      }
      PromisesLast(w1, steps[1..]);
    }
  }

  /** No acquire takes a row from an owner whose lease still runs: in every run each expiry comes at
      or after the end of the last lease that its owner's claim or renewal asked for. */
  lemma LeasesAreHonoured(w: World, steps: seq<Step>, j: nat)
    requires IsStart(w) && FreshRun(w, steps) && j < |RunFrom(w, steps).hist|
    requires RunFrom(w, steps).hist[j].Settled? && RunFrom(w, steps).hist[j].how.ByLeaseExpiry?
    ensures var hist := RunFrom(w, steps).hist;
            var until := PromisedUntil(hist[..j], hist[j].token);
            until.Some? && until.value <= hist[j].how.at
  {
    StartIsOk(w);
    StartIsPromised(w);
    PromisesLast(w, steps);
    assert HonoursPromise(RunFrom(w, steps).hist[..j], RunFrom(w, steps).hist[j]);
  }
}
