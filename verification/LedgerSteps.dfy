/** Every committed transaction keeps the invariant and only extends the append-only tables. */
module LedgerSteps {
  import opened Basics
  import opened LedgerTypes
  import opened Operations
  import opened LedgerInvariant
  import opened AttemptDiscipline

  // ---------------------------------------------------------------- idempotency records only

  /** Changing records and descriptors of executions without a head leaves everything else in step. */
  lemma RecordsChangeKeeps(t: Tables, t': Tables)
    requires Inv(t)
    requires t' == t.(records := t'.records, prepared := t'.prepared)
    requires RecordsOk(t'.records)
    requires forall id | id in t.heads :: id in t'.records && t'.records[id] == t.records[id]
    requires forall id | id in t'.prepared :: id in t'.records && BoundTo(t'.prepared[id], id, t'.records[id])
    ensures Inv(t') && Extends(t, t')
  {
    assert LinksOk(t');
  }

  /** A pending row has no head. */
  lemma PendingHasNoHead(t: Tables, id: ExecId)
    requires Inv(t) && id in t.records && t.records[id].state == Pending
    ensures id !in t.heads
  {
  }

  /** Rewriting a pending row in place. */
  lemma PendingUpdateKeeps(t: Tables, id: ExecId, r: Record)
    requires Inv(t) && id in t.records && t.records[id].state == Pending
    requires RowChecks(r) && SameKey(r, t.records[id]) && r.generation == t.records[id].generation
             && r.fingerprint == t.records[id].fingerprint
    ensures Inv(t.(records := t.records[id := r])) && Extends(t, t.(records := t.records[id := r]))
  {
    PendingHasNoHead(t, id);
    UpdateKeepsRecords(t.records, id, r);
    RecordsChangeKeeps(t, t.(records := t.records[id := r]));
  }

  lemma CompleteKeeps(t: Tables, c: Claim, result: Json, now: Time)
    requires Inv(t) && Complete(t, c, result, now).Done?
    ensures var t' := Complete(t, c, result, now).state; Inv(t') && Extends(t, t')
  {
    if c.owner {
      assert RowChecks(t.records[c.execId]);
      PendingUpdateKeeps(t, c.execId, Settle(t.records[c.execId], Completed, Some(result), None, now));
    }
  }

  lemma MarkUnknownKeeps(t: Tables, c: Claim, error: Text, now: Time)
    requires Inv(t) && MarkUnknown(t, c, error, now).Done?
    ensures var t' := MarkUnknown(t, c, error, now).state; Inv(t') && Extends(t, t')
  {
    if c.owner {
      assert RowChecks(t.records[c.execId]);
      PendingUpdateKeeps(t, c.execId, Settle(t.records[c.execId], Unknown, None, Some(error), now));
    }
  }

  lemma RenewKeeps(t: Tables, c: Claim, now: Time, leaseSeconds: int)
    requires Inv(t) && Renew(t, c, now, leaseSeconds).Done?
    ensures var t' := Renew(t, c, now, leaseSeconds).state; Inv(t') && Extends(t, t')
  {
    var r := t.records[c.execId];
    assert RowChecks(r);
    PendingUpdateKeeps(t, c.execId, r.(lease := Some(now + leaseSeconds), updatedAt := now));
  }

  /** Deleting rows that are neither reconciled nor confirmed not applied, with their descriptors. */
  lemma DeletionKeeps(t: Tables, gone: set<ExecId>)
    requires Inv(t) && gone !! t.heads.Keys
    requires forall id | id in gone && id in t.records :: t.records[id].state != NotApplied
    ensures var t' := t.(records := t.records - gone, prepared := t.prepared - gone); Inv(t') && Extends(t, t')
  {
    var t' := t.(records := t.records - gone, prepared := t.prepared - gone);
    DeleteKeepsRecords(t.records, gone);
    forall id | id in t.heads ensures id in t'.records && t'.records[id] == t.records[id] {
      assert id !in gone;
    }
    RecordsChangeKeeps(t, t');
  }

  lemma FailKeeps(t: Tables, c: Claim)
    requires Inv(t) && Fail(t, c).Done?
    ensures var t' := Fail(t, c).state; Inv(t') && Extends(t, t')
  {
    if c.owner {
      PendingHasNoHead(t, c.execId);
      DeletionKeeps(t, {c.execId});
    }
  }

  lemma PruneKeeps(t: Tables, cutoff: Time)
    requires Inv(t)
    ensures var t' := PruneCompleted(t, cutoff).state; Inv(t') && Extends(t, t')
  {
    DeletionKeeps(t, Prunable(t, cutoff));
  }

  lemma PrepareKeeps(t: Tables, c: Claim, a: Action)
    requires Inv(t) && PrepareAction(t, c, a).Done?
    ensures var t' := PrepareAction(t, c, a).state; Inv(t') && Extends(t, t')
  {
    if c.execId !in t.prepared {
      PreparedIsBound(t, c, a);
      RecordsChangeKeeps(t, t.(prepared := t.prepared[c.execId := a]));
    }
  }

  /** A newly prepared action is bound to its claim's own row. */
  lemma PreparedIsBound(t: Tables, c: Claim, a: Action)
    requires LinksOk(t) && PrepareAction(t, c, a).Done? && c.execId !in t.prepared
    ensures PrepareAction(t, c, a).state == t.(prepared := t.prepared[c.execId := a])
    ensures var prepared := t.prepared[c.execId := a];
            forall id | id in prepared :: id in t.records && BoundTo(prepared[id], id, t.records[id])
  {
  }

  // ---------------------------------------------------------------- acquire

  /** The newest-row query finds a row whenever the key has one. */
  lemma LatestFindsARow(rs: map<ExecId, Record>, ns: Namespace, k: Key, id: ExecId)
    requires id in rs && HasKey(rs[id], ns, k)
    ensures Latest(rs, ns, k).Some?
  {
    var m := NewestOf(rs, ns, k, id, rs.Keys);
    assert IsLatest(rs, ns, k, m);
  }

  lemma NewestOf(rs: map<ExecId, Record>, ns: Namespace, k: Key, id: ExecId, among: set<ExecId>) returns (m: ExecId)
    requires id in rs && HasKey(rs[id], ns, k) && among <= rs.Keys
    ensures m in rs && HasKey(rs[m], ns, k)
    ensures forall j | j in among && HasKey(rs[j], ns, k) :: rs[j].generation <= rs[m].generation
    decreases |among|
  {
    if among == {} {
      m := id;
    } else {
      var x :| x in among;
      m := NewestOf(rs, ns, k, id, among - {x});
      if HasKey(rs[x], ns, k) && rs[m].generation < rs[x].generation {
        m := x;
      }
    }
  }

  /** A new owner appears only for an unused key or above a newest row confirmed not applied. */
  lemma InsertOwnerKeeps(t: Tables, q: AcquireArgs, generation: int)
    requires Inv(t) && InsertOwner(t, q, generation).Done?
    requires q.prepared.Some? ==> q.prepared.value.digest == q.fingerprint
                                  && q.prepared.value.namespace == NamespaceDigest(q.namespace)
    requires MayInsert(t.records, q, generation)
    ensures var t' := InsertOwner(t, q, generation).state; Inv(t') && Extends(t, t')
  {
    var id, row := NewExecId(q), OwnerRow(q, generation);
    var prepared := if q.prepared.Some? then t.prepared[id := q.prepared.value] else t.prepared;
    NewOwnerRecords(t.records, q, generation);
    NewRowKeepsBindings(t, id, row, q.prepared);
    RecordsChangeKeeps(t, t.(records := t.records[id := row], prepared := prepared));
  }

  function OwnerRow(q: AcquireArgs, generation: int): Record {
    PendingRow(q.namespace, q.key, generation, q.fingerprint, q.token, q.now + q.leaseSeconds, q.now)
  }

  lemma NewOwnerRecords(rs: map<ExecId, Record>, q: AcquireArgs, generation: int)
    requires RecordsOk(rs) && MayInsert(rs, q, generation) && NewExecId(q) !in rs
    ensures RecordsOk(rs[NewExecId(q) := OwnerRow(q, generation)])
  {
    InsertKeepsRecords(rs, NewExecId(q), OwnerRow(q, generation));
  }

  /** A new row takes no head's place and comes with its own prepared action. */
  lemma NewRowKeepsBindings(t: Tables, id: ExecId, r: Record, a: Option<Action>)
    requires LinksOk(t) && id !in t.records && (a.Some? ==> BoundTo(a.value, id, r))
    ensures forall j | j in t.heads :: j in t.records && j != id
    ensures var prepared := if a.Some? then t.prepared[id := a.value] else t.prepared;
            forall j | j in prepared :: j in t.records[id := r] && BoundTo(prepared[j], j, t.records[id := r][j])
  {
  }

  lemma ExpireOwnerKeeps(t: Tables, id: ExecId, q: AcquireArgs)
    requires Inv(t) && id in t.records && t.records[id].state == Pending && ExpireOwner(t, id, q).Done?
    ensures var t' := ExpireOwner(t, id, q).state; Inv(t') && Extends(t, t')
  {
    var row := t.records[id].(state := Unknown, error := Some(OwnerLeaseExpired),
                              owner := None, lease := None, updatedAt := q.now);
    var t1 := t.(records := t.records[id := row]);
    assert RowChecks(t.records[id]);
    PendingUpdateKeeps(t, id, row);
    PendingHasNoHead(t, id);
    if id in t.prepared {
      OpenHeadOpens(t1, t.prepared[id], q.now, q.outboxId);
      OpenedKeeps(t1, ExpireOwner(t, id, q).state, t.prepared[id], q.now, q.outboxId);
    }
  }

  lemma AcquireKeeps(t: Tables, q: AcquireArgs)
    requires Inv(t) && Acquire(t, q).Done?
    ensures var t' := Acquire(t, q).state; Inv(t') && Extends(t, t')
  {
    var how := AcquireShape(t, q);
    match how
    case Replied =>
    case Inserted(generation) =>
      NextGenerationMayInsert(t.records, q, generation);
      InsertOwnerKeeps(t, q, generation);
    case Expired(id) => ExpireOwnerKeeps(t, id, q);
  }

  /** The three things an acquire can commit. */
  datatype Acquired = Replied | Inserted(generation: int) | Expired(id: ExecId)

  ghost predicate MayInsert(rs: map<ExecId, Record>, q: AcquireArgs, generation: int) {
    && generation >= 1
    && (forall j | j in rs && HasKey(rs[j], q.namespace, q.key) ::
          rs[j].generation < generation && rs[j].state == NotApplied && rs[j].fingerprint == q.fingerprint)
    && (generation > 1 ==> exists b :: b in rs && HasKey(rs[b], q.namespace, q.key) && rs[b].generation == generation - 1)
  }

  /** One for an unused key, else one more than a newest row that is confirmed not applied. */
  ghost predicate IsNextGeneration(rs: map<ExecId, Record>, q: AcquireArgs, generation: int) {
    match Latest(rs, q.namespace, q.key)
    case None => generation == 1
    case Some(id) => rs[id].state == NotApplied && rs[id].fingerprint == q.fingerprint && generation == rs[id].generation + 1
  }

  lemma AcquireShape(t: Tables, q: AcquireArgs) returns (how: Acquired)
    requires Acquire(t, q).Done?
    ensures q.prepared.Some? ==> q.prepared.value.digest == q.fingerprint
                                 && q.prepared.value.namespace == NamespaceDigest(q.namespace)
    ensures match how
            case Replied => Acquire(t, q).state == t
            case Inserted(generation) =>
              IsNextGeneration(t.records, q, generation) && Acquire(t, q) == InsertOwner(t, q, generation)
            case Expired(id) =>
              id in t.records && t.records[id].state == Pending && Acquire(t, q) == ExpireOwner(t, id, q)
  {
    var found := Latest(t.records, q.namespace, q.key);
    if found.None? {
      how := Inserted(1);
    } else {
      var r := t.records[found.value];
      if r.state == NotApplied {
        how := Inserted(r.generation + 1);
      } else if r.state == Pending && r.lease.Some? && r.lease.value <= q.now {
        how := Expired(found.value);
      } else {
        how := Replied;
      }
    }
  }

  lemma NextGenerationMayInsert(rs: map<ExecId, Record>, q: AcquireArgs, generation: int)
    requires RecordsOk(rs) && IsNextGeneration(rs, q, generation)
    ensures MayInsert(rs, q, generation)
  {
    if Latest(rs, q.namespace, q.key).None? {
      UnusedMayInsert(rs, q);
    } else {
      NotAppliedMayInsert(rs, q);
    }
  }

  lemma UnusedMayInsert(rs: map<ExecId, Record>, q: AcquireArgs)
    requires RecordsOk(rs) && Latest(rs, q.namespace, q.key).None?
    ensures MayInsert(rs, q, 1)
  {
    NoLatestMeansUnused(rs, q.namespace, q.key);
  }

  lemma NotAppliedMayInsert(rs: map<ExecId, Record>, q: AcquireArgs)
    requires RecordsOk(rs) && Latest(rs, q.namespace, q.key).Some?
    requires var r := rs[Latest(rs, q.namespace, q.key).value]; r.state == NotApplied && r.fingerprint == q.fingerprint
    ensures MayInsert(rs, q, rs[Latest(rs, q.namespace, q.key).value].generation + 1)
  {
    NewestNotAppliedLeads(rs, q.namespace, q.key);
    assert RowChecks(rs[Latest(rs, q.namespace, q.key).value]);
  }

  lemma NoLatestMeansUnused(rs: map<ExecId, Record>, ns: Namespace, k: Key)
    requires RecordsOk(rs) && Latest(rs, ns, k).None?
    ensures forall j | j in rs :: !HasKey(rs[j], ns, k)
  {
    forall j | j in rs && HasKey(rs[j], ns, k) ensures false {
      LatestFindsARow(rs, ns, k, j);
    }
  }

  /** Under a newest row confirmed not applied, every row of the key is older and not applied. */
  lemma NewestNotAppliedLeads(rs: map<ExecId, Record>, ns: Namespace, k: Key)
    requires RecordsOk(rs) && Latest(rs, ns, k).Some? && rs[Latest(rs, ns, k).value].state == NotApplied
    ensures var r := rs[Latest(rs, ns, k).value];
            forall j | j in rs && HasKey(rs[j], ns, k) ::
              rs[j].generation < r.generation + 1 && rs[j].state == NotApplied && rs[j].fingerprint == r.fingerprint
  {
    var id := Latest(rs, ns, k).value;
    forall j | j in rs && HasKey(rs[j], ns, k)
      ensures rs[j].generation < rs[id].generation + 1 && rs[j].state == NotApplied && rs[j].fingerprint == rs[id].fingerprint
    {
      assert j != id ==> Ordered(rs[j], rs[id]);
    }
  }

  // ---------------------------------------------------------------- heads

  lemma RecordUnknownKeeps(t: Tables, c: Claim, a: Action, error: Text, now: Time, drawn: OutboxId)
    requires Inv(t) && RecordUnknown(t, c, a, error, now, drawn).Done?
    ensures var t' := RecordUnknown(t, c, a, error, now, drawn).state; Inv(t') && Extends(t, t')
  {
    var action := if c.execId in t.prepared then t.prepared[c.execId] else a;
    var row := Settle(t.records[c.execId], Unknown, None, Some(error), now);
    var t1 := t.(records := t.records[c.execId := row]);
    assert RowChecks(t.records[c.execId]);
    PendingUpdateKeeps(t, c.execId, row);
    OpenHeadOpens(t1, action, now, drawn);
    OpenedKeeps(t1, RecordUnknown(t, c, a, error, now, drawn).state, action, now, drawn);
  }

  lemma CreateUnknownKeeps(t: Tables, a: Action, drawn: OutboxId)
    requires Inv(t) && CreateUnknown(t, a, drawn).Done?
    ensures var t' := CreateUnknown(t, a, drawn).state; Inv(t') && Extends(t, t')
  {
    OpenHeadOpens(t, a, a.attemptedAt, drawn);
    OpenedKeeps(t, CreateUnknown(t, a, drawn).state, a, a.attemptedAt, drawn);
  }

  // ---------------------------------------------------------------- attempts

  lemma AppendAttemptAppends(t: Tables, id: ExecId, p: EventPayload, at: Time, ty: AuditType, d: Detail, drawn: OutboxId)
    requires Inv(t) && id in t.heads && !p.Moved?
    requires AppendAttempt(t, id, p, at, ty, d, drawn).Done?
    ensures var e := AttemptEvent(t.heads[id], p, at);
            var t' := AppendAttempt(t, id, p, at, ty, d, drawn).state;
            && Appendable(t.events[id], e)
            && Appended(t, t', id, e, ty, d, drawn)
            && t'.records == t.records && t'.prepared == t.prepared
  {
    ReplayShape(t.heads[id].action, t.heads[id].updatedAt, t.events[id]);
    EnqueueAppends(t, id, AttemptEvent(t.heads[id], p, at), ty, d, drawn);
  }

  lemma AttemptKeepsLinks(t: Tables, t': Tables, id: ExecId, e: Event)
    requires LinksOk(t) && id in t.heads && !e.payload.Moved?
    requires t'.heads == t.heads[id := Advance(t.heads[id], e)]
    requires t'.events == t.events[id := t.events[id] + [e]]
    requires t'.records == t.records && t'.prepared == t.prepared
    ensures LinksOk(t')
  {
  }

  lemma AttemptAppendKeeps(t: Tables, t': Tables, id: ExecId, e: Event, ty: AuditType, d: Detail, drawn: OutboxId)
    requires Inv(t) && Appended(t, t', id, e, ty, d, drawn) && Appendable(t.events[id], e) && !e.payload.Moved?
    requires t'.records == t.records && t'.prepared == t.prepared
    requires Reports(PayloadFor(Advance(t.heads[id], e), ty, d), e)
    ensures Inv(t') && Extends(t, t')
  {
    AppendKeeps(t, t', id, e, ty, d, drawn);
    AppendExtends(t, t', id, e, ty, d, drawn);
    AttemptKeepsLinks(t, t', id, e);
  }

  lemma StartKeeps(t: Tables, cx: AttemptContext, p: Provider, expected: nat, now: Time, drawn: OutboxId)
    requires Inv(t) && StartAttempt(t, cx, p, expected, now, drawn).Done?
    ensures var t' := StartAttempt(t, cx, p, expected, now, drawn).state; Inv(t') && Extends(t, t')
  {
    var id := cx.action.execId;
    var pay := Started(cx.attempt, cx.deadline, cx.version, p.id);
    var d := StartDetail(cx, p);
    AppendAttemptAppends(t, id, pay, now, AttemptStarted, d, drawn);
    AttemptAppendKeeps(t, StartAttempt(t, cx, p, expected, now, drawn).state, id, AttemptEvent(t.heads[id], pay, now),
                       AttemptStarted, d, drawn);
  }

  lemma FinishKeeps(t: Tables, cx: AttemptContext, p: Provider, outcome: AttemptOutcome, expected: nat,
                    finding: Option<Finding>, error: Option<Text>, at: Time, drawn: OutboxId)
    requires Inv(t) && FinishAttempt(t, cx, p, outcome, expected, finding, error, at, drawn).Done?
    ensures var t' := FinishAttempt(t, cx, p, outcome, expected, finding, error, at, drawn).state;
            Inv(t') && Extends(t, t')
  {
    var id := cx.action.execId;
    var pay := Finished(cx.attempt, p.id, outcome, finding, error);
    var d := FinishDetail(cx, p, outcome, finding);
    AppendAttemptAppends(t, id, pay, at, AttemptFinished, d, drawn);
    AttemptAppendKeeps(t, FinishAttempt(t, cx, p, outcome, expected, finding, error, at, drawn).state, id,
                       AttemptEvent(t.heads[id], pay, at), AttemptFinished, d, drawn);
  }

  // ---------------------------------------------------------------- transitions

  /** An unresolved head always finds its idempotency row in the state it expects. */
  lemma AuthorityAgrees(t: Tables, id: ExecId)
    requires Inv(t) && id in t.heads && t.heads[id].state in {UNKNOWN, MANUAL_REVIEW}
    ensures id in t.records && t.records[id].state in {Unknown, ManualReview}
  {
    ReplayShape(t.heads[id].action, t.heads[id].updatedAt, t.events[id]);
  }

  /** The tables after one event was appended with its envelope. */
  function WithEvent(t: Tables, id: ExecId, e: Event, ty: AuditType, d: Detail, drawn: OutboxId): Tables
    requires id in t.heads && id in t.events
  {
    var h := Advance(t.heads[id], e);
    t.(heads := t.heads[id := h], events := t.events[id := t.events[id] + [e]],
       outbox := t.outbox[drawn := Envelope(id, h.revision, ty, PayloadFor(h, ty, d), None, 0)])
  }

  /** A legal transition commits unless the drawn outbox id is taken; in particular the
      idempotency authority always matches. */
  lemma AppendTransitionAppends(t: Tables, id: ExecId, tr: Transition, ty: AuditType, d: Detail, drawn: OutboxId)
    requires Inv(t) && id in t.heads && LegalTransition(t.heads[id].state, tr.newState)
    ensures id in t.records
    ensures var e := TransitionEvent(t.heads[id], tr);
            var h := Advance(t.heads[id], e);
            AppendTransition(t, id, tr, ty, d, drawn) ==
              if drawn in t.outbox then Refused(IntegrityError)
              else Done(WithEvent(t, id, e, ty, d, drawn).(records := t.records[id := ResolvedRow(t.records[id], h)]), h)
  {
    assert t.heads[id].revision == |t.events[id]| by {
      ReplayShape(t.heads[id].action, t.heads[id].updatedAt, t.events[id]);
    }
    AuthorityAgrees(t, id);
    EnqueueAppends(t, id, TransitionEvent(t.heads[id], tr), ty, d, drawn);
  }

  lemma TransitionKeepsLinks(t: Tables, t': Tables, id: ExecId, e: Event)
    requires LinksOk(t) && id in t.heads && id in t.records
    requires t'.heads == t.heads[id := Advance(t.heads[id], e)]
    requires t'.events == t.events[id := t.events[id] + [e]]
    requires t'.prepared == t.prepared
    requires t'.records == t.records[id := ResolvedRow(t.records[id], t'.heads[id])]
    ensures LinksOk(t')
  {
  }

  lemma ResolvingKeepsRecords(rs: map<ExecId, Record>, id: ExecId, h: Head, e: Event)
    requires RecordsOk(rs) && id in rs && rs[id].state in {Unknown, ManualReview} && e.payload.Moved?
    ensures RecordsOk(rs[id := ResolvedRow(rs[id], Advance(h, e))])
  {
    assert RowChecks(rs[id]);
    UpdateKeepsRecords(rs, id, ResolvedRow(rs[id], Advance(h, e)));
  }

  lemma TransitionAppendKeeps(t: Tables, t': Tables, id: ExecId, e: Event, ty: AuditType, d: Detail, drawn: OutboxId)
    requires Inv(t) && Appended(t, t', id, e, ty, d, drawn) && Appendable(t.events[id], e) && e.payload.Moved?
    requires Reports(PayloadFor(Advance(t.heads[id], e), ty, d), e)
    requires t.heads[id].state in {UNKNOWN, MANUAL_REVIEW}
    requires t'.prepared == t.prepared && id in t.records
    requires t'.records == t.records[id := ResolvedRow(t.records[id], t'.heads[id])]
    ensures Inv(t') && Extends(t, t')
  {
    assert LogsOk(t') && OutboxOk(t') by { AppendKeeps(t, t', id, e, ty, d, drawn); }
    assert Extends(t, t') by { AppendExtends(t, t', id, e, ty, d, drawn); }
    assert RecordsOk(t'.records) by {
      AuthorityAgrees(t, id);
      ResolvingKeepsRecords(t.records, id, t.heads[id], e);
    }
    assert LinksOk(t') by { TransitionKeepsLinks(t, t', id, e); }
  }

  /** A decision that is not refused makes an event the log accepts. */
  lemma DecisionAppendable(h: Head, es: seq<Event>, q: TransitionArgs)
    requires HeadOk(h, es) && DecisionRefusal(h, es, q).None? && LegalTransition(h.state, TransitionOf(q).newState)
    ensures Appendable(es, TransitionEvent(h, TransitionOf(q)))
  {
    ReplayShape(h.action, h.updatedAt, es);
  }

  lemma TransitionShape(t: Tables, q: TransitionArgs)
    requires CompareAndAppendTransition(t, q).Done?
    ensures var id := q.execId;
            && id in t.heads && id in t.events
            && DecisionRefusal(t.heads[id], t.events[id], q).None?
            && (q.decision.ByFinding? ==> q.provider.Some? && q.attempt.Some?)
            && LegalTransition(t.heads[id].state, TransitionOf(q).newState)
            && CompareAndAppendTransition(t, q) == AppendTransition(t, id, TransitionOf(q), AuditTypeOf(q), DetailOf(q), q.outboxId)
  {
  }

  /** Any committed transition that its log accepts and its audit event reports. */
  lemma AppendTransitionKeeps(t: Tables, id: ExecId, tr: Transition, ty: AuditType, d: Detail, drawn: OutboxId)
    requires Inv(t) && id in t.heads && LegalTransition(t.heads[id].state, tr.newState)
    requires Appendable(t.events[id], TransitionEvent(t.heads[id], tr))
    requires Reports(PayloadFor(Advance(t.heads[id], TransitionEvent(t.heads[id], tr)), ty, d), TransitionEvent(t.heads[id], tr))
    requires AppendTransition(t, id, tr, ty, d, drawn).Done?
    ensures var t' := AppendTransition(t, id, tr, ty, d, drawn).state; Inv(t') && Extends(t, t')
  {
    var e, t' := TransitionEvent(t.heads[id], tr), AppendTransition(t, id, tr, ty, d, drawn).state;
    assert Appended(t, t', id, e, ty, d, drawn) && id in t.records && t'.prepared == t.prepared
           && t'.records == t.records[id := ResolvedRow(t.records[id], t'.heads[id])] by {
      AppendTransitionAppends(t, id, tr, ty, d, drawn);
    }
    TransitionAppendKeeps(t, t', id, e, ty, d, drawn);
  }

  lemma TransitionKeeps(t: Tables, q: TransitionArgs)
    requires Inv(t) && CompareAndAppendTransition(t, q).Done?
    ensures var t' := CompareAndAppendTransition(t, q).state; Inv(t') && Extends(t, t')
  {
    TransitionShape(t, q);
    DecisionAppendable(t.heads[q.execId], t.events[q.execId], q);
    AppendTransitionKeeps(t, q.execId, TransitionOf(q), AuditTypeOf(q), DetailOf(q), q.outboxId);
  }

  // ---------------------------------------------------------------- recovery

  /** The synthetic finish of the one open attempt. */
  predicate Expires(es: seq<Event>, e: Event, now: Time) {
    && |OpenStarts(es)| == 1
    && var s := OpenStarts(es)[0].payload;
    && s.Started?
    && e == Event(|es| + 1, UNKNOWN, UNKNOWN, now,
                  Finished(s.attempt, s.provider, RecoveryRequired, None, Some(ProviderAttemptExpired)))
  }

  /** What recovery appends: the finish of the one expired attempt, then the move to review. */
  ghost predicate Quarantined(t: Tables, t': Tables, id: ExecId, now: Time) {
    && id in t.heads && id in t'.heads && id in t.events && id in t'.events
    && |t'.events[id]| == |t.events[id]| + 2
    && t.events[id] <= t'.events[id]
    && t'.heads[id].state == MANUAL_REVIEW
    && OpenStarts(t'.events[id]) == []
    && Expires(t.events[id], t'.events[id][|t.events[id]|], now)
    && t'.events[id][|t.events[id]| + 1].payload == Moved(RecoveryTransition(now, 1))
  }

  /** Closing the only open attempt keeps the invariant and leaves nothing open. */
  lemma CloseAllKeeps(t: Tables, id: ExecId, now: Time, draw: nat -> OutboxId)
    requires Inv(t) && id in t.heads && OpenStarts(t.events[id]) != []
    requires forall e | e in OpenStarts(t.events[id]) :: e.payload.Started?
    requires CloseAll(t, id, OpenStarts(t.events[id]), now, draw).Done? && t.heads[id].state == UNKNOWN
    ensures |OpenStarts(t.events[id])| == 1
    ensures var t' := CloseAll(t, id, OpenStarts(t.events[id]), now, draw).state;
            && Inv(t') && Extends(t, t') && id in t'.heads
            && |t'.events[id]| == |t.events[id]| + 1
            && Expires(t.events[id], t'.events[id][|t.events[id]|], now)
            && t'.heads[id] == t.heads[id].(revision := |t.events[id]| + 1, updatedAt := now)
            && OpenStarts(t'.events[id]) == []
  {
    AtMostOneOpen(t.events[id]);
    var open := OpenStarts(t.events[id]);
    var s := open[0].payload;
    var p, d := ExpiryOf(s), ExpiryDetail(t.heads[id], s);
    var e := AttemptEvent(t.heads[id], p, now);
    var t' := AppendAttempt(t, id, p, now, AttemptRecoveryRecorded, d, draw(|open|)).state;
    assert open[1..] == [];
    AppendAttemptAppends(t, id, p, now, AttemptRecoveryRecorded, d, draw(|open|));
    assert Inv(t') && Extends(t, t') by {
      AttemptAppendKeeps(t, t', id, e, AttemptRecoveryRecorded, d, draw(|open|));
    }
    assert t.heads[id].revision == |t.events[id]| by {
      ReplayShape(t.heads[id].action, t.heads[id].updatedAt, t.events[id]);
    }
    ClosingLeavesNothingOpen(t.events[id], e);
  }

  lemma ClosingLeavesNothingOpen(es: seq<Event>, e: Event)
    requires |OpenStarts(es)| == 1 && OpenStarts(es)[0].payload.Started? && e.payload.Finished?
    requires e.payload.attempt == OpenStarts(es)[0].payload.attempt
    ensures OpenStarts(es + [e]) == []
  {
    assert (es + [e])[..|es|] == es;
    assert Without(OpenStarts(es), e.payload.attempt) == [];
  }

  /** Moving a head with nothing open to review. */
  lemma ReviewKeeps(t: Tables, id: ExecId, now: Time, unfinished: nat, drawn: OutboxId)
    requires Inv(t) && id in t.heads && t.heads[id].state == UNKNOWN && OpenStarts(t.events[id]) == []
    requires Review(t, id, now, unfinished, drawn).Done?
    ensures var t' := Review(t, id, now, unfinished, drawn).state;
            && Inv(t') && Extends(t, t')
            && id in t'.heads && t'.heads[id].state == MANUAL_REVIEW
            && Review(t, id, now, unfinished, drawn).value == t'.heads[id]
            && t'.events[id] == t.events[id] + [TransitionEvent(t.heads[id], RecoveryTransition(now, unfinished))]
            && OpenStarts(t'.events[id]) == []
  {
    var tr := RecoveryTransition(now, unfinished);
    var d := ReviewDetail(tr);
    assert Appendable(t.events[id], TransitionEvent(t.heads[id], tr)) by {
      ReplayShape(t.heads[id].action, t.heads[id].updatedAt, t.events[id]);
    }
    AppendTransitionKeeps(t, id, tr, RecoveryTransitionRecorded, d, drawn);
    ReviewShape(t, id, now, unfinished, drawn);
  }

  lemma ReviewShape(t: Tables, id: ExecId, now: Time, unfinished: nat, drawn: OutboxId)
    requires id in t.heads && id in t.events && Review(t, id, now, unfinished, drawn).Done?
    ensures var t' := Review(t, id, now, unfinished, drawn).state;
            && id in t'.heads && t'.heads[id].state == MANUAL_REVIEW && id in t'.events
            && Review(t, id, now, unfinished, drawn).value == t'.heads[id]
            && t'.events[id] == t.events[id] + [TransitionEvent(t.heads[id], RecoveryTransition(now, unfinished))]
            && OpenStarts(t'.events[id]) == OpenStarts(t.events[id])
  {
    var t' := Review(t, id, now, unfinished, drawn).state;
    assert t'.events[id][..|t.events[id]|] == t.events[id];
  }

  lemma ExtendsTransitively(t: Tables, t1: Tables, t2: Tables)
    requires LogsOk(t) && LogsOk(t1) && t1.heads.Keys == t1.events.Keys && Extends(t, t1) && Extends(t1, t2)
    ensures Extends(t, t2)
  {
    forall o | o in t2.outbox && o !in t.outbox ensures Later(t2.outbox[o], t.heads) {
      var id := t2.outbox[o].execId;
      if id in t.heads {
        assert id in t.events && id in t1.events && id in t1.heads;
        ReplayShape(t.heads[id].action, t.heads[id].updatedAt, t.events[id]);
        ReplayShape(t1.heads[id].action, t1.heads[id].updatedAt, t1.events[id]);
      }
    }
  }

  /** Something is open, and all of it is past its deadline. */
  predicate IsDue(open: seq<Event>, now: Time) {
    open != [] && forall e | e in open :: e.payload.Started? && e.payload.deadline <= now
  }

  /** Recovery either changes nothing, or closes what is open and then moves the head to review. */
  lemma RecoverUnfolds(t: Tables, id: ExecId, now: Time, fits: bool, draw: nat -> OutboxId) returns (closed: bool)
    requires RecoverUnfinished(t, id, now, fits, draw).Done?
    ensures id in t.heads && id in t.events
    ensures forall e | e in OpenStarts(t.events[id]) :: e.payload.Started?
    ensures closed <==> IsDue(OpenStarts(t.events[id]), now)
    ensures var r := RecoverUnfinished(t, id, now, fits, draw);
            var open := OpenStarts(t.events[id]);
            if !closed then r.state == t
            else
              && fits && t.heads[id].state == UNKNOWN
              && var c := CloseAll(t, id, open, now, draw);
              && c.Done? && id in c.state.heads && id in c.state.events
              && var v := Review(c.state, id, now, |open|, draw(0));
              && v.Done? && r == Done(v.state, Some(v.value))
  {
    OpenStartsAreStarts(t.events[id]);
    var open := OpenStarts(t.events[id]);
    closed := IsDue(open, now);
  }

  lemma QuarantineKeeps(t: Tables, id: ExecId, now: Time, t1: Tables, t2: Tables)
    requires Inv(t) && id in t.heads && id in t1.heads && id in t1.events && id in t2.heads && id in t2.events
    requires Inv(t1) && Extends(t, t1) && Extends(t1, t2)
    requires |t1.events[id]| == |t.events[id]| + 1 && Expires(t.events[id], t1.events[id][|t.events[id]|], now)
    requires t2.events[id] == t1.events[id] + [TransitionEvent(t1.heads[id], RecoveryTransition(now, 1))]
    requires t2.heads[id].state == MANUAL_REVIEW && OpenStarts(t2.events[id]) == []
    ensures Extends(t, t2) && Quarantined(t, t2, id, now)
  {
    ExtendsTransitively(t, t1, t2);
  }

  lemma RecoverKeeps(t: Tables, id: ExecId, now: Time, fits: bool, draw: nat -> OutboxId)
    requires Inv(t) && RecoverUnfinished(t, id, now, fits, draw).Done?
    ensures var t' := RecoverUnfinished(t, id, now, fits, draw).state;
            && Inv(t') && Extends(t, t') && id in t.events
            && if !IsDue(OpenStarts(t.events[id]), now) then t' == t
               else fits && Quarantined(t, t', id, now) && RecoverUnfinished(t, id, now, fits, draw).value == Some(t'.heads[id])
  {
    var closed := RecoverUnfolds(t, id, now, fits, draw);
    if closed {
      CloseAllKeeps(t, id, now, draw);
      var t1 := CloseAll(t, id, OpenStarts(t.events[id]), now, draw).state;
      ReviewKeeps(t1, id, now, 1, draw(0));
      QuarantineKeeps(t, id, now, t1, RecoverUnfinished(t, id, now, fits, draw).state);
    }
  }
}
