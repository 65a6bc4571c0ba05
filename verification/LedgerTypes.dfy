/** The rows of the idempotency authority and of the reconciliation ledger.

    Identifiers, JSON documents, evidence and diagnostics are opaque: the protocol
    only ever compares them.  Execution record ids additionally carry the rank by
    which the outbox query orders them.  Digests are
    injective images of what they digest. */
module LedgerTypes {
  import opened Basics

  type Namespace(==, !new)
  type Key(==, !new)
  type Fingerprint(==, !new)
  type Token(==, !new)
  type OutboxId(==, !new)
  type AttemptId(==, !new)
  type ProviderId(==, !new)
  type Version(==, !new)
  type Json(==, !new)
  type Identity(==, !new)
  type Descriptor(==, !new)

  /** Stored diagnostics: the fixed messages of the protocol, or a caller's own text. */
  datatype Text =
    | OwnerLeaseExpired
    | OutcomeIsUnknown
    | ManualReconciliationRequired
    | ConfirmedNotAppliedText
    | NoResultReconstructed
    | ProviderAttemptExpired
    | ExpiredAttemptNeedsReview
    | LegacyStateUnrecognized
    | LegacyLeaseUntrusted
    | LegacyResultMissing
    | LegacyResultInvalid
    | Blank
    | Message(code: nat)

  datatype EvidenceKind = RuntimeKind | NamedKind(name: nat)
  datatype Operator = Operator(digest: nat)

  /** Evidence is a provider's or operator's document, or the count recovery records. */
  datatype Evidence = Document(json: Json) | ExpiredAttempts(unfinished: nat)

  datatype ExecId = ExecId(rank: nat)

  datatype NamespaceDigest = NamespaceDigest(namespace: Namespace)
  datatype EvidenceDigest = EvidenceDigest(evidence: Evidence)

  // ---------------------------------------------------------------- idempotency records

  datatype RecordState = Pending | Completed | Unknown | ManualReview | AppliedNoResult | NotApplied

  datatype Record = Record(
    namespace: Namespace,
    key: Key,
    generation: int,
    fingerprint: Fingerprint,
    state: RecordState,
    result: Option<Json>,
    error: Option<Text>,
    owner: Option<Token>,
    lease: Option<Time>,
    updatedAt: Time)

  /** The two table CHECK constraints and the generation CHECK. */
  predicate RowChecks(r: Record) {
    && r.generation >= 1
    && (if r.state == Pending then r.owner.Some? && r.lease.Some? else r.owner.None? && r.lease.None?)
    && (if r.state == Completed then r.result.Some? && r.error.None? else r.result.None?)
  }

  /** What a caller keeps from `acquire`. */
  datatype Claim = Claim(
    namespace: Namespace,
    key: Key,
    fingerprint: Fingerprint,
    owner: bool,
    token: Option<Token>,
    execId: ExecId)

  // ---------------------------------------------------------------- reconciliation

  /** The recovery descriptor of one execution.  `identity` stands for the tool,
      contract, contract version and tenant partition; `kinds` are the evidence kinds of
      the registered provider; `descriptor` stands for schemas, limits and metadata. */
  datatype Action = Action(
    execId: ExecId,
    digest: Fingerprint,
    namespace: NamespaceDigest,
    identity: Identity,
    attemptedAt: Time,
    kinds: set<EvidenceKind>,
    descriptor: Descriptor)

  datatype HeadState = UNKNOWN | CONFIRMED_SUCCEEDED | CONFIRMED_NOT_APPLIED | MANUAL_REVIEW

  datatype Disposition = BLOCKED_UNKNOWN | BLOCKED_MANUAL_REVIEW | COMPLETED | APPLIED_NO_RESULT | RETRY_ALLOWED

  datatype Head = Head(
    action: Action,
    state: HeadState,
    revision: nat,
    disposition: Disposition,
    result: Option<Json>,
    updatedAt: Time)

  datatype AttemptOutcome = Success | Inconclusive | Unavailable | Errored | TimedOut | Cancelled | RecoveryRequired

  datatype Source = FromProvider | FromOperator | FromRecovery

  datatype FindingFields = FindingFields(
    proposed: HeadState,
    kind: EvidenceKind,
    evidence: Evidence,
    observedAt: Time,
    retrySafe: bool,
    result: Option<Json>)

  /** A finding that can be constructed at all: it is conclusive, `retrySafe` is asserted
      exactly for CONFIRMED_NOT_APPLIED, and only CONFIRMED_SUCCEEDED carries a result. */
  predicate Conclusive(f: FindingFields) {
    && f.proposed != UNKNOWN
    && (f.retrySafe <==> f.proposed == CONFIRMED_NOT_APPLIED)
    && (f.result.Some? ==> f.proposed == CONFIRMED_SUCCEEDED)
  }

  type Finding = f: FindingFields | Conclusive(f)
    witness FindingFields(MANUAL_REVIEW, RuntimeKind, ExpiredAttempts(0), 0, false, None)

  /** An operator's resolution; its expected state is always MANUAL_REVIEW. */
  datatype ResolutionFields = ResolutionFields(
    execId: ExecId,
    operator: Operator,
    reason: Text,
    expectedRevision: nat,
    newState: HeadState,
    resolvedAt: Time,
    kind: EvidenceKind,
    evidence: Evidence,
    retrySafe: bool,
    result: Option<Json>)

  predicate Terminal(m: ResolutionFields) {
    && m.newState in {CONFIRMED_SUCCEEDED, CONFIRMED_NOT_APPLIED}
    && (m.retrySafe <==> m.newState == CONFIRMED_NOT_APPLIED)
    && (m.result.Some? ==> m.newState == CONFIRMED_SUCCEEDED)
  }

  type Resolution = m: ResolutionFields | Terminal(m)
    witness ResolutionFields(ExecId(0), Operator(0), Message(0), 0, CONFIRMED_SUCCEEDED, 0, RuntimeKind, ExpiredAttempts(0), false, None)

  datatype Decision = ByFinding(finding: Finding) | ByResolution(resolution: Resolution)

  datatype Provider = Provider(id: ProviderId, version: Version, kinds: set<EvidenceKind>)

  datatype AttemptContext = AttemptContext(attempt: AttemptId, deadline: Time, version: Version, action: Action)

  datatype Transition = Transition(
    newState: HeadState,
    source: Source,
    kind: EvidenceKind,
    evidence: Evidence,
    at: Time,
    retrySafe: bool,
    result: Option<Json>,
    provider: Option<ProviderId>,
    attempt: Option<AttemptId>,
    operator: Option<Operator>,
    reason: Option<Text>)

  datatype EventPayload =
    | Started(attempt: AttemptId, deadline: Time, version: Version, provider: ProviderId)
    | Finished(attempt: AttemptId, provider: ProviderId, outcome: AttemptOutcome,
               finding: Option<Finding>, error: Option<Text>)
    | Moved(transition: Transition)

  /** One row of the append-only event table. */
  datatype Event = Event(revision: nat, before: HeadState, after: HeadState, at: Time, payload: EventPayload)

  // ---------------------------------------------------------------- audit outbox

  datatype AuditType =
    | UnknownRecorded
    | AttemptStarted
    | AttemptFinished
    | AttemptRecoveryRecorded
    | TransitionRecorded
    | ManualTransitionRecorded
    | RecoveryTransitionRecorded

  /** Which attempt, outcome, evidence kind and operator an audit payload names. */
  datatype Detail = Detail(
    provider: Option<Provider>,
    attempt: Option<AttemptId>,
    outcome: Option<AttemptOutcome>,
    kind: Option<EvidenceKind>,
    evidence: Option<EvidenceDigest>,
    operator: Option<Operator>)

  const NO_DETAIL := Detail(None, None, None, None, None, None)

  datatype Payload = Payload(
    auditType: AuditType,
    execId: ExecId,
    digest: Fingerprint,
    namespace: NamespaceDigest,
    identity: Identity,
    timestamp: Time,
    state: HeadState,
    revision: nat,
    disposition: Disposition,
    detail: Detail)

  datatype Envelope = Envelope(
    execId: ExecId,
    revision: nat,
    auditType: AuditType,
    payload: Payload,
    deliveredAt: Option<Time>,
    attempts: nat)

  // ---------------------------------------------------------------- the database

  datatype Tables = Tables(
    records: map<ExecId, Record>,
    prepared: map<ExecId, Action>,
    heads: map<ExecId, Head>,
    events: map<ExecId, seq<Event>>,
    outbox: map<OutboxId, Envelope>)

  const EMPTY := Tables(map[], map[], map[], map[], map[])

  datatype Error =
    | IntegrityError
    | MalformedLog
    | InvalidArgument
    | FingerprintConflict
    | OwnershipLost
    | NotOwner
    | PreparedDiffers
    | PreparedIdentityDiffers
    | HeadExists
    | NotFound
    | LinkMissing
    | LinkMismatch
    | NotUnknown
    | ActionDiffers
    | IllegalTransition
    | CasConflict
    | AttemptConflict
    | AttemptProviderDiffers
    | OpenAttemptOutsideUnknown
    | NoMatchingFinish
    | EvidenceRejected
    | AuthorityMismatch
    | OutboxConflict
}
