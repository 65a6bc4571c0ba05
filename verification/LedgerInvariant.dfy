/** What every transaction keeps, table by table and across tables. */
module LedgerInvariant {
  import opened Basics
  import opened LedgerTypes
  import opened Operations

  // ---------------------------------------------------------------- one event log

  function StateAfter(es: seq<Event>): HeadState {
    if es == [] then UNKNOWN else es[|es| - 1].after
  }

  /** The head as the fold of its log over a fresh UNKNOWN head. */
  function ReplayLog(a: Action, created: Time, es: seq<Event>): Head {
    if es == [] then FreshHead(a, created)
    else Advance(ReplayLog(a, created, es[..|es| - 1]), es[|es| - 1])
  }

  /** The finding that a provider transition restates. */
  function FindingOf(tr: Transition): FindingFields {
    FindingFields(tr.newState, tr.kind, tr.evidence, tr.at, tr.retrySafe, tr.result)
  }

  /** A provider transition rests on an identical finding that a successful attempt persisted. */
  predicate RestsOnFinding(es: seq<Event>, tr: Transition) {
    && tr.provider.Some?
    && tr.attempt.Some?
    && Conclusive(FindingOf(tr))
    && HasConfirmingFinish(es, tr.attempt.value, tr.provider.value, FindingOf(tr))
  }

  predicate Appendable(es: seq<Event>, e: Event) {
    && e.revision == |es| + 1
    && e.before == StateAfter(es)
    && match e.payload
       case Started(_, _, _, _) => e.before == UNKNOWN && e.after == UNKNOWN && AttemptRefusal(es, e.payload).None?
       case Finished(_, _, _, _, _) => e.after == e.before && AttemptRefusal(es, e.payload).None?
       case Moved(tr) =>
         && LegalTransition(e.before, e.after)
         && e.after == tr.newState
         && e.at == tr.at
         && (tr.retrySafe <==> tr.newState == CONFIRMED_NOT_APPLIED)
         && match tr.source
            case FromProvider => e.before == UNKNOWN && RestsOnFinding(es, tr)
            case FromOperator => e.before == MANUAL_REVIEW && tr.operator.Some?
            case FromRecovery => e.after == MANUAL_REVIEW && OpenStarts(es) == []
  }

  predicate LogOk(es: seq<Event>) {
    es == [] || (LogOk(es[..|es| - 1]) && Appendable(es[..|es| - 1], es[|es| - 1]))
  }

  // ---------------------------------------------------------------- idempotency records

  predicate SameKey(x: Record, y: Record) {
    x.namespace == y.namespace && x.key == y.key
  }

  /** Two rows of one key: distinct generations, one fingerprint, and the older one confirmed
      not applied. */
  predicate Ordered(x: Record, y: Record) {
    && x.generation != y.generation
    && x.fingerprint == y.fingerprint
    && (x.generation < y.generation ==> x.state == NotApplied)
    && (y.generation < x.generation ==> y.state == NotApplied)
  }

  predicate IsPredecessor(rs: map<ExecId, Record>, b: ExecId, a: ExecId)
    requires a in rs
  {
    b in rs && SameKey(rs[b], rs[a]) && rs[b].generation == rs[a].generation - 1
  }

  ghost predicate HasPredecessor(rs: map<ExecId, Record>, a: ExecId)
    requires a in rs
  {
    exists b :: IsPredecessor(rs, b, a)
  }

  ghost predicate RecordsOk(rs: map<ExecId, Record>) {
    && (forall id | id in rs :: RowChecks(rs[id]))
    && (forall a, b | a in rs && b in rs && a != b && SameKey(rs[a], rs[b]) :: Ordered(rs[a], rs[b]))
    && (forall a {:trigger HasPredecessor(rs, a)} | a in rs && rs[a].generation > 1 :: HasPredecessor(rs, a))
  }

  // ---------------------------------------------------------------- links between tables

  predicate BoundTo(a: Action, id: ExecId, r: Record) {
    a.execId == id && a.digest == r.fingerprint && a.namespace == NamespaceDigest(r.namespace)
  }

  predicate Agrees(h: Head, r: Record) {
    r.state == RecordStateFor(h.disposition) && r.result == RecordResultFor(h)
  }

  predicate LinksOk(t: Tables) {
    && t.heads.Keys == t.events.Keys
    && (forall id | id in t.heads ::
          id in t.records && BoundTo(t.heads[id].action, id, t.records[id]) && Agrees(t.heads[id], t.records[id]))
    && (forall id | id in t.prepared :: id in t.records && BoundTo(t.prepared[id], id, t.records[id]))
  }

  predicate HeadOk(h: Head, es: seq<Event>) {
    LogOk(es) && h == ReplayLog(h.action, h.updatedAt, es)
  }

  predicate LogsOk(t: Tables) {
    forall id | id in t.heads :: id in t.events && HeadOk(t.heads[id], t.events[id])
  }

  // ---------------------------------------------------------------- audit outbox

  predicate NamesProvider(d: Detail, p: ProviderId) {
    d.provider.Some? && d.provider.value.id == p
  }

  /** The audit type and detail tell what the event was. */
  predicate Reports(p: Payload, e: Event) {
    var d := p.detail;
    match e.payload
    case Started(a, _, version, provider) =>
      && p.auditType == AttemptStarted
      && NamesProvider(d, provider) && d.provider.value.version == version
      && d == NO_DETAIL.(provider := d.provider, attempt := Some(a))
    case Finished(a, provider, outcome, finding, _) =>
      && p.auditType in {AttemptFinished, AttemptRecoveryRecorded}
      && NamesProvider(d, provider)
      && d == Detail(d.provider, Some(a), Some(outcome), if finding.Some? then Some(finding.value.kind) else None,
                     if finding.Some? then Some(EvidenceDigest(finding.value.evidence)) else None, None)
    case Moved(tr) =>
      && d.kind == Some(tr.kind) && d.evidence == Some(EvidenceDigest(tr.evidence)) && d.operator == tr.operator
      && d.attempt == tr.attempt
      && match tr.source
         case FromProvider =>
           && p.auditType == TransitionRecorded && d.outcome == Some(Success)
           && tr.provider.Some? && NamesProvider(d, tr.provider.value)
         case FromOperator => p.auditType == ManualTransitionRecorded && d.outcome.None? && d.provider.None?
         case FromRecovery => p.auditType == RecoveryTransitionRecorded && d.outcome.None? && d.provider.None?
  }

  /** The envelope at revision r shows the head replayed from the first r events. */
  predicate Witnesses(e: Envelope, a: Action, es: seq<Event>) {
    && e.revision <= |es|
    && e.auditType == e.payload.auditType
    && e.payload == PayloadFor(ReplayLog(a, e.payload.timestamp, es[..e.revision]), e.auditType, e.payload.detail)
    && (if e.revision == 0 then e.auditType == UnknownRecorded else Reports(e.payload, es[e.revision - 1]))
  }

  predicate IsFor(e: Envelope, id: ExecId, revision: int) {
    e.execId == id && e.revision == revision
  }

  ghost predicate HasEnvelope(outbox: map<OutboxId, Envelope>, id: ExecId, revision: nat) {
    exists o :: o in outbox && IsFor(outbox[o], id, revision)
  }

  predicate Truthful(e: Envelope, heads: map<ExecId, Head>, events: map<ExecId, seq<Event>>) {
    e.execId in heads && e.execId in events && Witnesses(e, heads[e.execId].action, events[e.execId])
  }

  predicate OnePerRevision(outbox: map<OutboxId, Envelope>) {
    forall o, p | o in outbox && p in outbox && IsFor(outbox[o], outbox[p].execId, outbox[p].revision) :: o == p
  }

  /** One envelope for every revision from zero up to the length of the log. */
  ghost predicate Gapless(outbox: map<OutboxId, Envelope>, events: map<ExecId, seq<Event>>) {
    forall id, r: nat {:trigger HasEnvelope(outbox, id, r)} | id in events && r <= |events[id]| :: HasEnvelope(outbox, id, r)
  }

  ghost predicate OutboxOk(t: Tables) {
    && (forall o | o in t.outbox :: Truthful(t.outbox[o], t.heads, t.events))
    && OnePerRevision(t.outbox)
    && Gapless(t.outbox, t.events)
  }

  ghost predicate Inv(t: Tables) {
    RecordsOk(t.records) && LinksOk(t) && LogsOk(t) && OutboxOk(t)
  }

  // ---------------------------------------------------------------- the fold

  lemma ReplayShape(a: Action, created: Time, es: seq<Event>)
    requires LogOk(es)
    ensures var h := ReplayLog(a, created, es);
            && h.action == a
            && h.revision == |es|
            && h.state == StateAfter(es)
            && h.disposition == DispositionOf(h.state, h.result.Some?)
            && (es != [] ==> h.updatedAt == es[|es| - 1].at)
            && (h.state == UNKNOWN ==> h.result == None)
  {
    if es != [] {
      ReplayShape(a, created, es[..|es| - 1]);
    }
  }

  lemma ReplayIgnoresBirth(a: Action, c1: Time, c2: Time, es: seq<Event>)
    requires es != [] || c1 == c2
    ensures ReplayLog(a, c1, es) == ReplayLog(a, c2, es)
  {
    if |es| > 1 {
      ReplayIgnoresBirth(a, c1, c2, es[..|es| - 1]);
    }
  }

  lemma ReplayExtends(a: Action, created: Time, es: seq<Event>, e: Event)
    ensures ReplayLog(a, created, es + [e]) == Advance(ReplayLog(a, created, es), e)
  {
    assert (es + [e])[..|es|] == es;
  }

  lemma LogExtends(es: seq<Event>, e: Event)
    requires LogOk(es) && Appendable(es, e)
    ensures LogOk(es + [e])
  {
    assert (es + [e])[..|es|] == es;
  }

  // ---------------------------------------------------------------- record updates

  lemma UpdateKeepsRecords(rs: map<ExecId, Record>, id: ExecId, r: Record)
    requires RecordsOk(rs) && id in rs
    requires rs[id].state != NotApplied
    requires RowChecks(r) && SameKey(r, rs[id]) && r.generation == rs[id].generation && r.fingerprint == rs[id].fingerprint
    ensures RecordsOk(rs[id := r])
  {
    var rs' := rs[id := r];
    forall a | a in rs' && rs'[a].generation > 1 ensures HasPredecessor(rs', a) {
      assert HasPredecessor(rs, a);
      var b :| IsPredecessor(rs, b, a);
      assert IsPredecessor(rs', b, a);
    }
    forall a, b | a in rs' && b in rs' && a != b && SameKey(rs'[a], rs'[b]) ensures Ordered(rs'[a], rs'[b]) {
      assert Ordered(rs[a], rs[b]);
    }
  }

  lemma InsertKeepsRecords(rs: map<ExecId, Record>, id: ExecId, r: Record)
    requires RecordsOk(rs) && id !in rs && RowChecks(r)
    requires forall j | j in rs && SameKey(rs[j], r) ::
               rs[j].generation < r.generation && rs[j].state == NotApplied && rs[j].fingerprint == r.fingerprint
    requires r.generation > 1 ==> exists b :: b in rs && SameKey(rs[b], r) && rs[b].generation == r.generation - 1
    ensures RecordsOk(rs[id := r])
  {
    var rs' := rs[id := r];
    forall a | a in rs' && rs'[a].generation > 1 ensures HasPredecessor(rs', a) {
      if a == id {
        var b :| b in rs && SameKey(rs[b], r) && rs[b].generation == r.generation - 1;
        assert IsPredecessor(rs', b, a);
      } else {
        assert HasPredecessor(rs, a);
      var b :| IsPredecessor(rs, b, a);
        assert IsPredecessor(rs', b, a);
      }
    }
  }

  lemma DeleteKeepsRecords(rs: map<ExecId, Record>, gone: set<ExecId>)
    requires RecordsOk(rs)
    requires forall id | id in gone && id in rs :: rs[id].state != NotApplied
    ensures RecordsOk(rs - gone)
  {
    var rs' := rs - gone;
    forall a | a in rs' && rs'[a].generation > 1 ensures HasPredecessor(rs', a) {
      assert HasPredecessor(rs, a);
      var b :| IsPredecessor(rs, b, a);
      assert Ordered(rs[a], rs[b]);
      assert IsPredecessor(rs', b, a);
    }
  }

  // ---------------------------------------------------------------- heads, logs and envelopes

  /** Enqueueing at a revision the outbox does not hold yet inserts exactly one envelope. */
  lemma EnqueueAtNewRevision(outbox: map<OutboxId, Envelope>, h: Head, ty: AuditType, d: Detail, drawn: OutboxId)
    requires forall o | o in outbox :: !IsFor(outbox[o], h.action.execId, h.revision)
    ensures var env := Envelope(h.action.execId, h.revision, ty, PayloadFor(h, ty, d), None, 0);
            var r := Enqueue(outbox, h, ty, d, drawn);
            if drawn in outbox then r == Refused(IntegrityError) else r == Done(outbox[drawn := env], ())
  {
  }

  /** Adding the envelope of a new last revision leaves the outbox gapless. */
  lemma GaplessAfter(outbox: map<OutboxId, Envelope>, events: map<ExecId, seq<Event>>, drawn: OutboxId, env: Envelope,
                     events': map<ExecId, seq<Event>>)
    requires Gapless(outbox, events) && drawn !in outbox
    requires env.execId in events' && events' == events[env.execId := events'[env.execId]]
    requires env.revision == |events'[env.execId]|
    requires env.revision > 0 ==> env.execId in events && |events[env.execId]| + 1 == env.revision
    ensures Gapless(outbox[drawn := env], events')
  {
    var outbox' := outbox[drawn := env];
    forall j, r: nat | j in events' && r <= |events'[j]| ensures HasEnvelope(outbox', j, r) {
      if j == env.execId && r == env.revision {
        assert drawn in outbox' && IsFor(outbox'[drawn], j, r);
      } else {
        assert HasEnvelope(outbox, j, r);
        var o :| o in outbox && IsFor(outbox[o], j, r);
        assert o in outbox' && IsFor(outbox'[o], j, r);
      }
    }
  }

  /** Longer logs keep every envelope truthful. */
  lemma TruthfulStays(e: Envelope, heads: map<ExecId, Head>, events: map<ExecId, seq<Event>>,
                      heads': map<ExecId, Head>, events': map<ExecId, seq<Event>>)
    requires Truthful(e, heads, events)
    requires e.execId in heads' && heads'[e.execId].action == heads[e.execId].action
    requires e.execId in events' && events[e.execId] <= events'[e.execId]
    ensures Truthful(e, heads', events')
  {
    assert events'[e.execId][..e.revision] == events[e.execId][..e.revision];
  }

  /** What a transaction may do to the append-only tables: envelopes and log prefixes stay, and a
      new envelope is undelivered and lies beyond the revision its head had. */
  ghost predicate Extends(t: Tables, t': Tables) {
    && (forall o | o in t.outbox :: o in t'.outbox && t'.outbox[o] == t.outbox[o])
    && (forall o | o in t'.outbox && o !in t.outbox :: Later(t'.outbox[o], t.heads))
    && (forall id | id in t.events :: id in t'.events && t.events[id] <= t'.events[id])
  }

  predicate Later(e: Envelope, heads: map<ExecId, Head>) {
    e.deliveredAt.None? && (e.execId in heads ==> e.revision > heads[e.execId].revision)
  }

  /** The one log `id` grew to `t'.events[id]` and the envelope of its last revision was queued. */
  lemma OutboxGrows(t: Tables, t': Tables, id: ExecId, drawn: OutboxId, env: Envelope)
    requires OutboxOk(t) && drawn !in t.outbox && t'.outbox == t.outbox[drawn := env]
    requires id in t'.heads && t'.heads == t.heads[id := t'.heads[id]]
    requires id in t'.events && t'.events == t.events[id := t'.events[id]]
    requires env.execId == id && env.revision == |t'.events[id]|
    requires if id in t.heads
             then id in t.events && t'.heads[id].action == t.heads[id].action && t.events[id] <= t'.events[id]
                  && |t.events[id]| + 1 == |t'.events[id]|
             else id !in t.events && t'.events[id] == []
    requires Truthful(env, t'.heads, t'.events)
    ensures OutboxOk(t')
  {
    GaplessAfter(t.outbox, t.events, drawn, env, t'.events);
    forall o | o in t'.outbox ensures Truthful(t'.outbox[o], t'.heads, t'.events) {
      if o != drawn {
        assert Truthful(t.outbox[o], t.heads, t.events);
        TruthfulStays(t.outbox[o], t.heads, t.events, t'.heads, t'.events);
      }
    }
    forall o | o in t.outbox ensures !IsFor(t.outbox[o], id, env.revision) {
      assert Truthful(t.outbox[o], t.heads, t.events);
    }
    assert OnePerRevision(t'.outbox);
  }

  /** A head inserted with its revision-zero envelope. */
  ghost predicate Opened(t: Tables, t': Tables, a: Action, at: Time, drawn: OutboxId) {
    && drawn !in t.outbox
    && t' == t.(heads := t.heads[a.execId := Head(a, UNKNOWN, 0, BLOCKED_UNKNOWN, None, at)],
                events := t.events[a.execId := []],
                outbox := t.outbox[drawn := Envelope(a.execId, 0, UnknownRecorded,
                                                     Payload(UnknownRecorded, a.execId, a.digest, a.namespace, a.identity, at,
                                                             UNKNOWN, 0, BLOCKED_UNKNOWN, NO_DETAIL), None, 0)])
  }

  lemma OpenHeadOpens(t: Tables, a: Action, at: Time, drawn: OutboxId)
    requires Inv(t) && a.execId !in t.heads
    ensures var r := OpenHead(t, a, at, drawn);
            if drawn in t.outbox then r == Refused(IntegrityError) else r.Done? && Opened(t, r.state, a, at, drawn)
  {
    forall o | o in t.outbox ensures !IsFor(t.outbox[o], a.execId, 0) {
      assert Truthful(t.outbox[o], t.heads, t.events);
    }
    EnqueueAtNewRevision(t.outbox, FreshHead(a, at), UnknownRecorded, NO_DETAIL, drawn);
  }

  lemma OpenedKeepsLinks(t: Tables, t': Tables, a: Action, at: Time, drawn: OutboxId)
    requires LinksOk(t) && Opened(t, t', a, at, drawn)
    requires a.execId in t.records && RowChecks(t.records[a.execId]) && t.records[a.execId].state == Unknown
    requires BoundTo(a, a.execId, t.records[a.execId])
    ensures LinksOk(t')
  {
    assert Agrees(FreshHead(a, at), t.records[a.execId]);
  }

  lemma OpenedKeepsLogs(t: Tables, t': Tables, a: Action, at: Time, drawn: OutboxId)
    requires LogsOk(t) && Opened(t, t', a, at, drawn)
    ensures LogsOk(t')
  {
    assert HeadOk(FreshHead(a, at), []);
  }

  lemma OpenedKeepsOutbox(t: Tables, t': Tables, a: Action, at: Time, drawn: OutboxId)
    requires OutboxOk(t) && t.heads.Keys == t.events.Keys && Opened(t, t', a, at, drawn) && a.execId !in t.heads
    ensures OutboxOk(t') && Extends(t, t')
  {
    OutboxGrows(t, t', a.execId, drawn, t'.outbox[drawn]);
  }

  /** A new head with an empty log and its revision-zero envelope keeps the tables in step. */
  lemma OpenedKeeps(t: Tables, t': Tables, a: Action, at: Time, drawn: OutboxId)
    requires Inv(t) && Opened(t, t', a, at, drawn)
    requires a.execId in t.records && t.records[a.execId].state == Unknown && a.execId !in t.heads
    requires BoundTo(a, a.execId, t.records[a.execId])
    ensures Inv(t') && Extends(t, t')
  {
    OpenedKeepsLinks(t, t', a, at, drawn);
    OpenedKeepsLogs(t, t', a, at, drawn);
    OpenedKeepsOutbox(t, t', a, at, drawn);
  }

  /** The moved head is still the replay of its log. */
  lemma HeadFollows(h: Head, es: seq<Event>, e: Event)
    requires HeadOk(h, es) && Appendable(es, e)
    ensures HeadOk(Advance(h, e), es + [e])
    ensures Advance(h, e).revision == |es| + 1
  {
    var h' := Advance(h, e);
    ReplayShape(h.action, h.updatedAt, es);
    LogExtends(es, e);
    ReplayExtends(h.action, h'.updatedAt, es, e);
    ReplayExtends(h.action, h.updatedAt, es, e);
    ReplayIgnoresBirth(h.action, h.updatedAt, h'.updatedAt, es + [e]);
  }

  lemma NewestEnvelopeIsTrue(h: Head, es: seq<Event>, ty: AuditType, d: Detail)
    requires HeadOk(h, es) && es != []
    requires Reports(PayloadFor(h, ty, d), es[|es| - 1])
    ensures Witnesses(Envelope(h.action.execId, |es|, ty, PayloadFor(h, ty, d), None, 0), h.action, es)
  {
    assert es[..|es|] == es;
  }

  /** One more event on one log, its envelope and the moved head. */
  ghost predicate Appended(t: Tables, t': Tables, id: ExecId, e: Event, ty: AuditType, d: Detail, drawn: OutboxId) {
    && id in t.heads && id in t.events && drawn !in t.outbox
    && var h := Advance(t.heads[id], e);
    && t'.heads == t.heads[id := h]
    && t'.events == t.events[id := t.events[id] + [e]]
    && t'.outbox == t.outbox[drawn := Envelope(id, h.revision, ty, PayloadFor(h, ty, d), None, 0)]
  }

  lemma EnqueueAppends(t: Tables, id: ExecId, e: Event, ty: AuditType, d: Detail, drawn: OutboxId)
    requires OutboxOk(t) && id in t.heads && id in t.events && t.heads[id].action.execId == id
    requires e.revision == |t.events[id]| + 1
    ensures var h := Advance(t.heads[id], e);
            var r := Enqueue(t.outbox, h, ty, d, drawn);
            if drawn in t.outbox then r == Refused(IntegrityError)
            else r == Done(t.outbox[drawn := Envelope(id, h.revision, ty, PayloadFor(h, ty, d), None, 0)], ())
  {
    var h := Advance(t.heads[id], e);
    forall o | o in t.outbox ensures !IsFor(t.outbox[o], id, h.revision) {
      assert Truthful(t.outbox[o], t.heads, t.events);
    }
    EnqueueAtNewRevision(t.outbox, h, ty, d, drawn);
  }

  /** Head, log and outbox stay in step. */
  lemma AppendKeeps(t: Tables, t': Tables, id: ExecId, e: Event, ty: AuditType, d: Detail, drawn: OutboxId)
    requires LogsOk(t) && OutboxOk(t) && Appended(t, t', id, e, ty, d, drawn) && t.heads[id].action.execId == id
    requires Appendable(t.events[id], e)
    requires Reports(PayloadFor(Advance(t.heads[id], e), ty, d), e)
    ensures LogsOk(t') && OutboxOk(t')
  {
    HeadFollows(t.heads[id], t.events[id], e);
    NewestEnvelopeIsTrue(t'.heads[id], t'.events[id], ty, d);
    OutboxGrows(t, t', id, drawn, t'.outbox[drawn]);
  }

  lemma AppendExtends(t: Tables, t': Tables, id: ExecId, e: Event, ty: AuditType, d: Detail, drawn: OutboxId)
    requires LogsOk(t) && Appended(t, t', id, e, ty, d, drawn) && e.revision == |t.events[id]| + 1
    ensures Extends(t, t')
  {
    ReplayShape(t.heads[id].action, t.heads[id].updatedAt, t.events[id]);
  }
}
