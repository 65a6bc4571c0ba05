/** Every public method of the idempotency store and of the reconciliation ledger, as one
    atomic transaction on the tables.

    Clock readings, freshly drawn identifiers and the verdict of the evidence schemas are
    parameters.  A refused transaction leaves the tables alone. */
module Operations {
  import opened Basics
  import opened LedgerTypes

  type Committed<V> = Outcome<Tables, V, Error>

  // ---------------------------------------------------------------- reconciliation rules

  predicate LegalTransition(current: HeadState, next: HeadState) {
    match current
    case UNKNOWN => next in {CONFIRMED_SUCCEEDED, CONFIRMED_NOT_APPLIED, MANUAL_REVIEW}
    case MANUAL_REVIEW => next in {CONFIRMED_SUCCEEDED, CONFIRMED_NOT_APPLIED}
    case _ => false
  }

  function DispositionOf(state: HeadState, resultAvailable: bool): Disposition {
    match state
    case UNKNOWN => BLOCKED_UNKNOWN
    case MANUAL_REVIEW => BLOCKED_MANUAL_REVIEW
    case CONFIRMED_NOT_APPLIED => RETRY_ALLOWED
    case CONFIRMED_SUCCEEDED => if resultAvailable then COMPLETED else APPLIED_NO_RESULT
  }

  function RecordStateFor(d: Disposition): RecordState {
    match d
    case BLOCKED_UNKNOWN => Unknown
    case BLOCKED_MANUAL_REVIEW => ManualReview
    case RETRY_ALLOWED => NotApplied
    case APPLIED_NO_RESULT => AppliedNoResult
    case COMPLETED => Completed
  }

  function RecordErrorFor(d: Disposition): Option<Text> {
    match d
    case BLOCKED_UNKNOWN => Some(OutcomeIsUnknown)
    case BLOCKED_MANUAL_REVIEW => Some(ManualReconciliationRequired)
    case RETRY_ALLOWED => Some(ConfirmedNotAppliedText)
    case APPLIED_NO_RESULT => Some(NoResultReconstructed)
    case COMPLETED => None
  }

  function RecordResultFor(h: Head): Option<Json> {
    if h.disposition == COMPLETED then h.result else None
  }

  function FreshHead(action: Action, at: Time): Head {
    Head(action, UNKNOWN, 0, BLOCKED_UNKNOWN, None, at)
  }

  /** The head after one more event. */
  function Advance(h: Head, e: Event): Head {
    match e.payload
    case Moved(tr) =>
      Head(h.action, tr.newState, e.revision, DispositionOf(tr.newState, tr.result.Some?), tr.result, e.at)
    case _ => h.(revision := e.revision, updatedAt := e.at)
  }

  function AttemptEvent(h: Head, p: EventPayload, at: Time): Event {
    Event(h.revision + 1, h.state, h.state, at, p)
  }

  function TransitionEvent(h: Head, tr: Transition): Event {
    Event(h.revision + 1, h.state, tr.newState, tr.at, Moved(tr))
  }

  /** The idempotency row that a resolved head leaves behind. */
  function ResolvedRow(r: Record, h: Head): Record {
    r.(state := RecordStateFor(h.disposition), result := RecordResultFor(h), error := RecordErrorFor(h.disposition),
       owner := None, lease := None, updatedAt := h.updatedAt)
  }

  // ---------------------------------------------------------------- attempts in an event log

  predicate Names(e: Event, a: AttemptId) {
    (e.payload.Started? || e.payload.Finished?) && e.payload.attempt == a
  }

  predicate Mentions(es: seq<Event>, a: AttemptId) {
    exists i | 0 <= i < |es| :: Names(es[i], a)
  }

  function Without(starts: seq<Event>, a: AttemptId): seq<Event> {
    if starts == [] then []
    else (if Names(starts[0], a) then [] else [starts[0]]) + Without(starts[1..], a)
  }

  /** The persisted starts that no later finish has closed, oldest first. */
  function OpenStarts(es: seq<Event>): seq<Event> {
    if es == [] then []
    else
      var rest := OpenStarts(es[..|es| - 1]);
      var last := es[|es| - 1];
      match last.payload
      case Started(_, _, _, _) => rest + [last]
      case Finished(a, _, _, _, _) => Without(rest, a)
      case Moved(_) => rest
  }

  /** The log names `a` once, in a start at index `i`. */
  predicate SoleStart(es: seq<Event>, a: AttemptId, i: nat) {
    && i < |es|
    && es[i].payload.Started?
    && es[i].payload.attempt == a
    && forall j | 0 <= j < |es| && j != i :: !Names(es[j], a)
  }

  predicate HasSoleStart(es: seq<Event>, a: AttemptId) {
    exists i | 0 <= i < |es| :: SoleStart(es, a, i)
  }

  predicate SoleStartBy(es: seq<Event>, a: AttemptId, p: ProviderId) {
    exists i | 0 <= i < |es| :: SoleStart(es, a, i) && es[i].payload.provider == p
  }

  /** Why a start or finish may not be appended, if it may not. */
  function AttemptRefusal(es: seq<Event>, p: EventPayload): Option<Error>
    requires !p.Moved?
  {
    match p
    case Started(a, _, _, _) =>
      if Mentions(es, a) || OpenStarts(es) != [] then Some(AttemptConflict) else None
    case Finished(a, provider, _, _, _) =>
      if !HasSoleStart(es, a) then Some(AttemptConflict)
      else if !SoleStartBy(es, a, provider) then Some(AttemptProviderDiffers)
      else None
  }

  predicate ConfirmsFinding(e: Event, a: AttemptId, p: ProviderId, f: Finding) {
    && e.payload.Finished?
    && e.payload.attempt == a
    && e.payload.provider == p
    && e.payload.outcome == Success
    && e.payload.finding == Some(f)
  }

  predicate HasConfirmingFinish(es: seq<Event>, a: AttemptId, p: ProviderId, f: Finding) {
    exists i | 0 <= i < |es| :: ConfirmsFinding(es[i], a, p, f)
  }

  // ---------------------------------------------------------------- shared row updates

  predicate HasKey(r: Record, ns: Namespace, k: Key) {
    r.namespace == ns && r.key == k
  }

  /** `id` is the row that ORDER BY generation DESC LIMIT 1 returns for the key. */
  predicate IsLatest(records: map<ExecId, Record>, ns: Namespace, k: Key, id: ExecId) {
    && id in records
    && HasKey(records[id], ns, k)
    && forall j | j in records && HasKey(records[j], ns, k) :: records[j].generation <= records[id].generation
  }

  ghost function Latest(records: map<ExecId, Record>, ns: Namespace, k: Key): (r: Option<ExecId>)
    ensures r.Some? ==> IsLatest(records, ns, k, r.value)
  {
    if exists id :: IsLatest(records, ns, k, id) then
      var id :| IsLatest(records, ns, k, id); Some(id)
    else None
  }

  /** The claim still owns its pending row. */
  predicate Holds(records: map<ExecId, Record>, c: Claim) {
    && c.execId in records
    && var r := records[c.execId];
    && HasKey(r, c.namespace, c.key)
    && r.fingerprint == c.fingerprint
    && c.token.Some? && r.owner == c.token
    && r.state == Pending
  }

  function Settle(r: Record, state: RecordState, result: Option<Json>, error: Option<Text>, now: Time): Record {
    r.(state := state, result := result, error := error, owner := None, lease := None, updatedAt := now)
  }

  function PendingRow(ns: Namespace, k: Key, generation: int, fp: Fingerprint, token: Token,
                      deadline: Time, now: Time): Record {
    Record(ns, k, generation, fp, Pending, None, None, Some(token), Some(deadline), now)
  }

  function PayloadFor(h: Head, auditType: AuditType, d: Detail): Payload {
    Payload(auditType, h.action.execId, h.action.digest, h.action.namespace, h.action.identity,
            h.updatedAt, h.state, h.revision, h.disposition, d)
  }

  predicate SameSlot(e: Envelope, id: ExecId, revision: nat, auditType: AuditType) {
    e.execId == id && e.revision == revision && e.auditType == auditType
  }

  predicate SlotTaken(outbox: map<OutboxId, Envelope>, id: ExecId, revision: nat, auditType: AuditType) {
    exists o | o in outbox :: SameSlot(outbox[o], id, revision, auditType)
  }

  /** Enqueue one audit event; an identical event already queued is left as it is. */
  function Enqueue(outbox: map<OutboxId, Envelope>, h: Head, auditType: AuditType, d: Detail, drawn: OutboxId)
    : Outcome<map<OutboxId, Envelope>, (), Error>
  {
    var p := PayloadFor(h, auditType, d);
    if SlotTaken(outbox, h.action.execId, h.revision, auditType) then
      if exists o | o in outbox :: SameSlot(outbox[o], h.action.execId, h.revision, auditType) && outbox[o].payload != p
      then Refused(OutboxConflict)
      else Done(outbox, ())
    else if drawn in outbox then Refused(IntegrityError)
    else Done(outbox[drawn := Envelope(h.action.execId, h.revision, auditType, p, None, 0)], ())
  }

  /** Insert an UNKNOWN head at revision zero together with its audit event. */
  function OpenHead(t: Tables, action: Action, at: Time, drawn: OutboxId): Committed<Head> {
    var h := FreshHead(action, at);
    match Enqueue(t.outbox, h, UnknownRecorded, NO_DETAIL, drawn)
    case Refused(e) => Refused(e)
    case Done(outbox, _) =>
      Done(t.(heads := t.heads[action.execId := h], events := t.events[action.execId := []], outbox := outbox), h)
  }

  // ---------------------------------------------------------------- idempotency store

  datatype AcquireReply =
    | Owner(execId: ExecId, generation: int)
    | Replay(result: Option<Json>)
    | OutcomeUnknown(execId: ExecId)
    | AlreadyApplied
    | InProgress

  datatype AcquireArgs = AcquireArgs(
    namespace: Namespace,
    key: Key,
    fingerprint: Fingerprint,
    prepared: Option<Action>,
    token: Token,
    drawnId: ExecId,
    now: Time,
    leaseSeconds: int,
    outboxId: OutboxId)

  function NewExecId(q: AcquireArgs): ExecId {
    if q.prepared.Some? then q.prepared.value.execId else q.drawnId
  }

  /** Create an owner at `generation`, with its recovery descriptor when one is given. */
  function InsertOwner(t: Tables, q: AcquireArgs, generation: int): Committed<AcquireReply> {
    var id := NewExecId(q);
    if id in t.records || (q.prepared.Some? && id in t.prepared) then Refused(IntegrityError)
    else
      var row := PendingRow(q.namespace, q.key, generation, q.fingerprint, q.token, q.now + q.leaseSeconds, q.now);
      Done(t.(records := t.records[id := row],
              prepared := if q.prepared.Some? then t.prepared[id := q.prepared.value] else t.prepared),
           Owner(id, generation))
  }

  /** Turn an expired owner into an explicit unknown outcome, with a head if one was prepared. */
  function ExpireOwner(t: Tables, id: ExecId, q: AcquireArgs): Committed<AcquireReply>
    requires id in t.records
  {
    var row := t.records[id].(state := Unknown, error := Some(OwnerLeaseExpired), owner := None, lease := None,
                              updatedAt := q.now);
    var t1 := t.(records := t.records[id := row]);
    if id !in t.prepared || id in t.heads then Done(t1, OutcomeUnknown(id))
    else
      match OpenHead(t1, t.prepared[id], q.now, q.outboxId)
      case Refused(e) => Refused(e)
      case Done(t2, _) => Done(t2, OutcomeUnknown(id))
  }

  ghost function Acquire(t: Tables, q: AcquireArgs): Committed<AcquireReply> {
    if q.prepared.Some? && (q.prepared.value.digest != q.fingerprint
                            || q.prepared.value.namespace != NamespaceDigest(q.namespace)) then
      Refused(InvalidArgument)
    else
      match Latest(t.records, q.namespace, q.key)
      case None => InsertOwner(t, q, 1)
      case Some(id) =>
        var r := t.records[id];
        if r.fingerprint != q.fingerprint then Refused(FingerprintConflict)
        else match r.state
          case Completed => Done(t, Replay(r.result))
          case Unknown => Done(t, OutcomeUnknown(id))
          case ManualReview => Done(t, OutcomeUnknown(id))
          case AppliedNoResult => Done(t, AlreadyApplied)
          case NotApplied => InsertOwner(t, q, r.generation + 1)
          case Pending =>
            if r.lease.Some? && r.lease.value <= q.now then ExpireOwner(t, id, q)
            else Done(t, InProgress)
  }

  function Complete(t: Tables, c: Claim, result: Json, now: Time): Committed<()> {
    if !c.owner then Done(t, ())
    else if !Holds(t.records, c) then Refused(OwnershipLost)
    else Done(t.(records := t.records[c.execId := Settle(t.records[c.execId], Completed, Some(result), None, now)]), ())
  }

  function MarkUnknown(t: Tables, c: Claim, error: Text, now: Time): Committed<()> {
    if !c.owner then Done(t, ())
    else if !Holds(t.records, c) then Refused(OwnershipLost)
    else Done(t.(records := t.records[c.execId := Settle(t.records[c.execId], Unknown, None, Some(error), now)]), ())
  }

  function Fail(t: Tables, c: Claim): Committed<()> {
    if !c.owner then Done(t, ())
    else if !Holds(t.records, c) then Refused(OwnershipLost)
    else Done(t.(records := t.records - {c.execId},
                 prepared := if c.execId in t.heads then t.prepared else t.prepared - {c.execId}), ())
  }

  function Renew(t: Tables, c: Claim, now: Time, leaseSeconds: int): Committed<()> {
    if !c.owner || c.token.None? then Refused(NotOwner)
    else if !Holds(t.records, c) then Refused(OwnershipLost)
    else Done(t.(records := t.records[c.execId := t.records[c.execId].(lease := Some(now + leaseSeconds), updatedAt := now)]), ())
  }

  function Prunable(t: Tables, cutoff: Time): set<ExecId> {
    set id | id in t.records && t.records[id].state == Completed && t.records[id].updatedAt < cutoff && id !in t.heads
  }

  function PruneCompleted(t: Tables, cutoff: Time): Committed<nat> {
    var gone := Prunable(t, cutoff);
    Done(t.(records := t.records - gone, prepared := t.prepared - gone), |gone|)
  }

  // ---------------------------------------------------------------- reconciliation ledger

  /** The checks that bind an action to the claim that presents it. */
  function ClaimRefusal(c: Claim, a: Action): Option<Error> {
    if !c.owner then Some(NotOwner)
    else if c.execId != a.execId || c.fingerprint != a.digest || NamespaceDigest(c.namespace) != a.namespace
            || c.token.None? then Some(InvalidArgument)
    else None
  }

  function PrepareAction(t: Tables, c: Claim, a: Action): Committed<()> {
    if ClaimRefusal(c, a).Some? then Refused(ClaimRefusal(c, a).value)
    else if c.execId in t.prepared then
      if t.prepared[c.execId] == a then Done(t, ()) else Refused(PreparedDiffers)
    else if !Holds(t.records, c) then Refused(OwnershipLost)
    else Done(t.(prepared := t.prepared[c.execId := a]), ())
  }

  predicate SameIdentity(p: Action, a: Action) {
    p.execId == a.execId && p.digest == a.digest && p.namespace == a.namespace && p.identity == a.identity
  }

  function RecordUnknown(t: Tables, c: Claim, a: Action, error: Text, now: Time, drawn: OutboxId): Committed<Head> {
    if ClaimRefusal(c, a).Some? then Refused(ClaimRefusal(c, a).value)
    else if c.execId in t.prepared && !SameIdentity(t.prepared[c.execId], a) then Refused(PreparedIdentityDiffers)
    else if !Holds(t.records, c) then Refused(OwnershipLost)
    else if c.execId in t.heads then Refused(HeadExists)
    else
      var action := if c.execId in t.prepared then t.prepared[c.execId] else a;
      var row := Settle(t.records[c.execId], Unknown, None, Some(error), now);
      OpenHead(t.(records := t.records[c.execId := row]), action, now, drawn)
  }

  function CreateUnknown(t: Tables, a: Action, drawn: OutboxId): Committed<Head> {
    if a.execId !in t.records then Refused(LinkMissing)
    else
      var r := t.records[a.execId];
      if r.fingerprint != a.digest || NamespaceDigest(r.namespace) != a.namespace then Refused(LinkMismatch)
      else if r.state != Unknown then Refused(NotUnknown)
      else if a.execId in t.heads then Refused(HeadExists)
      else OpenHead(t, a, a.attemptedAt, drawn)
  }

  /** Append one start or finish to the log of an existing head. */
  function AppendAttempt(t: Tables, id: ExecId, p: EventPayload, at: Time, auditType: AuditType, d: Detail,
                         drawn: OutboxId): Committed<Event>
    requires id in t.heads && id in t.events
    requires !p.Moved?
  {
    var h := t.heads[id];
    if p.Started? && h.state != UNKNOWN then Refused(IllegalTransition)
    else if AttemptRefusal(t.events[id], p).Some? then Refused(AttemptRefusal(t.events[id], p).value)
    else
      var e := AttemptEvent(h, p, at);
      var h' := Advance(h, e);
      match Enqueue(t.outbox, h', auditType, d, drawn)
      case Refused(err) => Refused(err)
      case Done(outbox, _) =>
        Done(t.(heads := t.heads[id := h'], events := t.events[id := t.events[id] + [e]], outbox := outbox), e)
  }

  /** The head that a start or finish addresses, or why it may not. */
  function AttemptTargetRefusal(t: Tables, cx: AttemptContext, p: Provider): Option<Error> {
    if cx.version != p.version then Some(InvalidArgument)
    else if cx.action.execId !in t.heads || cx.action.execId !in t.events then Some(NotFound)
    else if t.heads[cx.action.execId].action != cx.action then Some(ActionDiffers)
    else None
  }

  function StartDetail(cx: AttemptContext, p: Provider): Detail {
    NO_DETAIL.(provider := Some(p), attempt := Some(cx.attempt))
  }

  function StartAttempt(t: Tables, cx: AttemptContext, p: Provider, expected: nat, now: Time, drawn: OutboxId)
    : Committed<Event>
  {
    var id := cx.action.execId;
    if AttemptTargetRefusal(t, cx, p).Some? then Refused(AttemptTargetRefusal(t, cx, p).value)
    else if t.heads[id].state != UNKNOWN then Refused(IllegalTransition)
    else if t.heads[id].revision != expected then Refused(CasConflict)
    else AppendAttempt(t, id, Started(cx.attempt, cx.deadline, cx.version, p.id), now, AttemptStarted,
                       StartDetail(cx, p), drawn)
  }

  function FinishDetail(cx: AttemptContext, p: Provider, outcome: AttemptOutcome, finding: Option<Finding>): Detail {
    Detail(Some(p), Some(cx.attempt), Some(outcome),
           if finding.Some? then Some(finding.value.kind) else None,
           if finding.Some? then Some(EvidenceDigest(finding.value.evidence)) else None, None)
  }

  function FinishAttempt(t: Tables, cx: AttemptContext, p: Provider, outcome: AttemptOutcome, expected: nat,
                         finding: Option<Finding>, error: Option<Text>, at: Time, drawn: OutboxId)
    : Committed<Event>
  {
    var id := cx.action.execId;
    if cx.version != p.version || (outcome == Success) != finding.Some?
       || (finding.Some? && finding.value.kind !in p.kinds) then Refused(InvalidArgument)
    else if AttemptTargetRefusal(t, cx, p).Some? then Refused(AttemptTargetRefusal(t, cx, p).value)
    else if t.heads[id].revision != expected then Refused(CasConflict)
    else
      AppendAttempt(t, id, Finished(cx.attempt, p.id, outcome, finding, error), at, AttemptFinished,
                    FinishDetail(cx, p, outcome, finding), drawn)
  }

  /** Append a state transition, move the idempotency row with it and enqueue its audit event. */
  function AppendTransition(t: Tables, id: ExecId, tr: Transition, auditType: AuditType, d: Detail, drawn: OutboxId)
    : Committed<Head>
    requires id in t.heads && id in t.events
  {
    var h := t.heads[id];
    if !LegalTransition(h.state, tr.newState) then Refused(IllegalTransition)
    else if id !in t.records || t.records[id].state !in {Unknown, ManualReview} then Refused(AuthorityMismatch)
    else
      var h' := Advance(h, TransitionEvent(h, tr));
      match Enqueue(t.outbox, h', auditType, d, drawn)
      case Refused(err) => Refused(err)
      case Done(outbox, _) =>
        Done(t.(records := t.records[id := ResolvedRow(t.records[id], h')], heads := t.heads[id := h'],
                events := t.events[id := t.events[id] + [TransitionEvent(h, tr)]], outbox := outbox), h')
  }

  /** The provider of an open attempt, as far as its start record and the action describe it. */
  function RecordedProvider(s: EventPayload, a: Action): Provider
    requires s.Started?
  {
    Provider(s.provider, s.version, if a.kinds == {} then {RuntimeKind} else a.kinds)
  }

  /** The synthetic finish of an expired attempt. */
  function ExpiryOf(s: EventPayload): EventPayload
    requires s.Started?
  {
    Finished(s.attempt, s.provider, RecoveryRequired, None, Some(ProviderAttemptExpired))
  }

  function ExpiryDetail(h: Head, s: EventPayload): Detail
    requires s.Started?
  {
    NO_DETAIL.(provider := Some(RecordedProvider(s, h.action)), attempt := Some(s.attempt),
               outcome := Some(RecoveryRequired))
  }

  /** Close the given open starts one after the other. */
  function CloseAll(t: Tables, id: ExecId, open: seq<Event>, now: Time, draw: nat -> OutboxId)
    : Committed<()>
    requires id in t.heads && id in t.events
    requires forall e | e in open :: e.payload.Started?
    decreases |open|
  {
    if open == [] then Done(t, ())
    else
      var s := open[0].payload;
      match AppendAttempt(t, id, ExpiryOf(s), now, AttemptRecoveryRecorded, ExpiryDetail(t.heads[id], s), draw(|open|))
      case Refused(err) => Refused(err)
      case Done(t', _) => CloseAll(t', id, open[1..], now, draw)
  }

  function RecoveryTransition(now: Time, unfinished: nat): Transition {
    Transition(MANUAL_REVIEW, FromRecovery, RuntimeKind, ExpiredAttempts(unfinished), now, false, None, None, None, None,
               Some(ExpiredAttemptNeedsReview))
  }

  function ReviewDetail(tr: Transition): Detail {
    NO_DETAIL.(kind := Some(tr.kind), evidence := Some(EvidenceDigest(tr.evidence)))
  }

  function Review(t: Tables, id: ExecId, now: Time, unfinished: nat, drawn: OutboxId): Committed<Head>
    requires id in t.heads && id in t.events
  {
    var tr := RecoveryTransition(now, unfinished);
    AppendTransition(t, id, tr, RecoveryTransitionRecorded, ReviewDetail(tr), drawn)
  }

  lemma OpenStartsAreStarts(es: seq<Event>)
    ensures forall e | e in OpenStarts(es) :: e.payload.Started?
  {
    if es != [] {
      var last := es[|es| - 1];
      OpenStartsAreStarts(es[..|es| - 1]);
      if last.payload.Finished? {
        WithoutIsASubset(OpenStarts(es[..|es| - 1]), last.payload.attempt);
      }
    }
  }

  lemma WithoutIsASubset(starts: seq<Event>, a: AttemptId)
    ensures forall e :: e in Without(starts, a) <==> e in starts && !Names(e, a)
  {
  }

  /** Quarantine a head whose open attempt has expired.  None: nothing was open.  A head with
      the revision it had: some open attempt is still within its deadline. */
  function RecoverUnfinished(t: Tables, id: ExecId, now: Time, evidenceFits: bool, draw: nat -> OutboxId)
   : Committed<Option<Head>>
  {
    if id !in t.heads || id !in t.events then Refused(NotFound)
    else
      var open := OpenStarts(t.events[id]);
      OpenStartsAreStarts(t.events[id]);
      if open == [] then Done(t, None)
      else if t.heads[id].state != UNKNOWN then Refused(OpenAttemptOutsideUnknown)
      else if exists e | e in open :: e.payload.deadline > now then Done(t, Some(t.heads[id]))
      else
        match CloseAll(t, id, open, now, draw)
        case Refused(err) => Refused(err)
        case Done(t', _) =>
          if !evidenceFits then Refused(EvidenceRejected)
          else if id !in t'.heads || id !in t'.events then Refused(NotFound)
          else
            match Review(t', id, now, |open|, draw(0))
            case Refused(err) => Refused(err)
            case Done(t'', h) => Done(t'', Some(h))
  }

  datatype TransitionArgs = TransitionArgs(
    execId: ExecId,
    expectedState: HeadState,
    expectedRevision: nat,
    decision: Decision,
    provider: Option<Provider>,
    attempt: Option<AttemptId>,
    evidenceValid: bool,
    outboxId: OutboxId)

  /** Why a decision does not make a transition of this head, if it does not. */
  function DecisionRefusal(h: Head, es: seq<Event>, q: TransitionArgs): Option<Error> {
    match q.decision
    case ByFinding(f) =>
      if q.provider.None? then Some(InvalidArgument)
      else if h.state == MANUAL_REVIEW then Some(IllegalTransition)
      else if f.kind !in q.provider.value.kinds || q.attempt.None? then Some(InvalidArgument)
      else if !HasConfirmingFinish(es, q.attempt.value, q.provider.value.id, f) then Some(NoMatchingFinish)
      else None
    case ByResolution(m) =>
      if q.provider.Some? || q.attempt.Some? || m.execId != q.execId then Some(InvalidArgument)
      else if h.state != MANUAL_REVIEW || m.expectedRevision != h.revision then Some(CasConflict)
      else None
  }

  function TransitionOf(q: TransitionArgs): Transition
    requires q.decision.ByFinding? ==> q.provider.Some? && q.attempt.Some?
  {
    match q.decision
    case ByFinding(f) =>
      Transition(f.proposed, FromProvider, f.kind, f.evidence, f.observedAt, f.retrySafe, f.result,
                 Some(q.provider.value.id), q.attempt, None, None)
    case ByResolution(m) =>
      Transition(m.newState, FromOperator, m.kind, m.evidence, m.resolvedAt, m.retrySafe, m.result,
                 None, None, Some(m.operator), Some(m.reason))
  }

  function AuditTypeOf(q: TransitionArgs): AuditType {
    if q.decision.ByResolution? then ManualTransitionRecorded else TransitionRecorded
  }

  function DetailOf(q: TransitionArgs): Detail
    requires q.decision.ByFinding? ==> q.provider.Some? && q.attempt.Some?
  {
    var tr := TransitionOf(q);
    Detail(q.provider, q.attempt, if q.decision.ByResolution? then None else Some(Success), Some(tr.kind),
           Some(EvidenceDigest(tr.evidence)), tr.operator)
  }

  function CompareAndAppendTransition(t: Tables, q: TransitionArgs): Committed<Head> {
    if q.execId !in t.heads || q.execId !in t.events then Refused(NotFound)
    else
      var h := t.heads[q.execId];
      if h.state != q.expectedState || h.revision != q.expectedRevision then Refused(CasConflict)
      else if DecisionRefusal(h, t.events[q.execId], q).Some? then Refused(DecisionRefusal(h, t.events[q.execId], q).value)
      else if !q.evidenceValid then Refused(EvidenceRejected)
      else
        AppendTransition(t, q.execId, TransitionOf(q), AuditTypeOf(q), DetailOf(q), q.outboxId)
  }

  // ---------------------------------------------------------------- audit outbox

  /** The envelope may be delivered now: it is undelivered and no earlier revision of its
      execution is. */
  predicate Deliverable(outbox: map<OutboxId, Envelope>, o: OutboxId) {
    && o in outbox
    && outbox[o].deliveredAt.None?
    && forall p | p in outbox && outbox[p].execId == outbox[o].execId && outbox[p].deliveredAt.None? ::
         outbox[o].revision <= outbox[p].revision
  }

  function MarkDelivered(t: Tables, o: OutboxId, now: Time): Committed<()> {
    if o !in t.outbox then Refused(NotFound)
    else if t.outbox[o].deliveredAt.Some? then Done(t, ())
    else Done(t.(outbox := t.outbox[o := t.outbox[o].(deliveredAt := Some(now))]), ())
  }

  function RecordDeliveryFailure(t: Tables, o: OutboxId): Committed<()> {
    if o !in t.outbox then Refused(NotFound)
    else if t.outbox[o].deliveredAt.Some? then Done(t, ())
    else Done(t.(outbox := t.outbox[o := t.outbox[o].(attempts := t.outbox[o].attempts + 1)]), ())
  }
}
