/** The durable approval store: one row per request, moved from pending to decided to consumed. */
module Approvals {
  import opened Basics

  type RequestId(==, !new)
  type Name(==, !new)
  type Content(==, !new)
  type Token(==, !new)
  type SignKey(==, !new)

  datatype RiskTier = Low | Medium | High | Critical

  datatype Request = Request(
    id: RequestId,
    traceId: Name,
    tool: Name,
    arguments: Content,
    argumentsRedacted: bool,
    argumentsDigest: Name,
    risk: RiskTier,
    reason: Name,
    issuedAt: Time,
    expiresAt: Option<Time>,
    policyVersion: Option<Name>,
    policyDigest: Option<Name>,
    subject: Option<Name>,
    tenant: Option<Name>,
    identityIssuer: Option<Name>,
    actionDigest: Option<Name>)

  /** The fields of a request that a decision may name and is bound to. */
  datatype Scope = Scope(
    requestId: Option<RequestId>,
    tool: Option<Name>,
    argumentsDigest: Option<Name>,
    risk: Option<RiskTier>,
    policyVersion: Option<Name>,
    policyDigest: Option<Name>,
    subject: Option<Name>,
    tenant: Option<Name>,
    identityIssuer: Option<Name>,
    actionDigest: Option<Name>)

  datatype Decision = Decision(allow: bool, reason: Name, source: Name, decisionId: Name, approver: Option<Name>,
                               issuedAt: Time, expiresAt: Option<Time>, scope: Scope)

  datatype Status = Pending | Decided | Consumed

  /** Canonical text of a request or a decision; texts are equal exactly when the values are. */
  datatype Text = RequestText(request: Request) | DecisionText(decision: Decision)

  datatype Tag = Tag(key: SignKey, requestJson: Text, decisionJson: Option<Text>, status: Status,
                     consumedAt: Option<Time>, token: Option<Token>, reservedUntil: Option<Time>)

  datatype Row = Row(requestJson: Text, decisionJson: Option<Text>, status: Status, consumedAt: Option<Time>,
                     tag: Option<Tag>, token: Option<Token>, reservedUntil: Option<Time>)

  type Rows = map<RequestId, Row>

  datatype Config = Config(key: Option<SignKey>, storeArguments: bool, noArguments: Content)

  datatype Denial =
    | NotFound | DigestMissing | DigestMismatch | ToolMismatch | ArgumentsMismatch | PolicyMismatch
    | PolicyDigestMismatch | SubjectMismatch | TenantMismatch | IssuerMismatch | RiskMismatch
    | AlreadyConsumed | RequestExpired | DecisionPending | DecisionExpired | AlreadyReserved
    | ReservedConcurrently | ReservationMismatch | ReservationExpired | ChangedBeforeCommit

  datatype Failure =
    | UnknownRequest | TamperedRecord | RequestReused(denial: Denial) | DecideConsumed | DecideExpired
    | DecideAgain | DecideChanged | DecisionMismatch | DecisionOutlives | BadLease

  /** How a call ends; a denial is an answer, a failure is an exception. */
  datatype Answer<+V> = Granted(value: V) | Denied(denial: Denial) | Raised(failure: Failure)

  // ---------------------------------------------------------------- pure helpers

  function StoredRequest(c: Config, r: Request): Request {
    if c.storeArguments then r else r.(arguments := c.noArguments, argumentsRedacted := true)
  }

  function RecordTag(c: Config, requestJson: Text, decisionJson: Option<Text>, status: Status,
                     consumedAt: Option<Time>, token: Option<Token>, reservedUntil: Option<Time>): Option<Tag> {
    if c.key.None? then None
    else Some(Tag(c.key.value, requestJson, decisionJson, status, consumedAt, token, reservedUntil))
  }

  predicate TagVerifies(c: Config, r: Row) {
    c.key.Some? ==> r.tag == RecordTag(c, r.requestJson, r.decisionJson, r.status, r.consumedAt, r.token, r.reservedUntil)
  }

  function Expired(at: Option<Time>, now: Time): bool {
    at.Some? && at.value <= now
  }

  function ReservationIsOver(until: Option<Time>, now: Time): bool {
    until.None? || until.value <= now
  }

  /** Why a presented request is not the stored one. */
  function ValidateRequest(stored: Request, r: Request): Option<Denial> {
    if r.actionDigest.Some? && stored.actionDigest.None? then Some(DigestMissing)
    else if stored.actionDigest != r.actionDigest then Some(DigestMismatch)
    else if stored.tool != r.tool then Some(ToolMismatch)
    else if stored.argumentsDigest != r.argumentsDigest then Some(ArgumentsMismatch)
    else if stored.policyVersion != r.policyVersion then Some(PolicyMismatch)
    else if stored.policyDigest != r.policyDigest then Some(PolicyDigestMismatch)
    else if stored.subject != r.subject then Some(SubjectMismatch)
    else if stored.tenant != r.tenant then Some(TenantMismatch)
    else if stored.identityIssuer != r.identityIssuer then Some(IssuerMismatch)
    else if stored.risk != r.risk then Some(RiskMismatch)
    else None
  }

  function ScopeOf(r: Request): Scope {
    Scope(Some(r.id), Some(r.tool), Some(r.argumentsDigest), Some(r.risk), r.policyVersion, r.policyDigest, r.subject,
          r.tenant, r.identityIssuer, r.actionDigest)
  }

  predicate Fits<T(==)>(named: Option<T>, actual: Option<T>) {
    named.None? || named == actual
  }

  predicate ScopeFits(s: Scope, r: Request) {
    var q := ScopeOf(r);
    && Fits(s.requestId, q.requestId) && Fits(s.tool, q.tool) && Fits(s.argumentsDigest, q.argumentsDigest)
    && Fits(s.risk, q.risk) && Fits(s.policyVersion, q.policyVersion) && Fits(s.policyDigest, q.policyDigest)
    && Fits(s.subject, q.subject) && Fits(s.tenant, q.tenant) && Fits(s.identityIssuer, q.identityIssuer)
    && Fits(s.actionDigest, q.actionDigest)
  }

  /** Bind a decision to a request: it may only name the request's own fields, and then names all. */
  function BindTo(d: Decision, r: Request, now: Time): Outcome<Decision, (), Failure> {
    if !ScopeFits(d.scope, r) then Refused(DecisionMismatch)
    else if d.expiresAt.Some? && r.expiresAt.Some? && d.expiresAt.value > r.expiresAt.value then Refused(DecisionOutlives)
    else
      var expiry := if d.expiresAt.Some? then d.expiresAt
                    else if !d.allow && Expired(r.expiresAt, now) then None
                    else r.expiresAt;
      Done(d.(scope := ScopeOf(r), expiresAt := expiry), ())
  }

  // ---------------------------------------------------------------- transactions

  function OpenPending(c: Config, rows: Rows, r: Request): (Rows, Answer<()>) {
    if r.id !in rows then
      var json := RequestText(StoredRequest(c, r));
      (rows[r.id := Row(json, None, Pending, None, RecordTag(c, json, None, Pending, None, None, None), None, None)],
       Granted(()))
    else if !rows[r.id].requestJson.RequestText? then (rows, Raised(TamperedRecord))
    else
      match ValidateRequest(rows[r.id].requestJson.request, r)
      case Some(denial) => (rows, Raised(RequestReused(denial)))
      case None => (rows, Granted(()))
  }

  /** The row as the store reads it back: parsed, and checked against its tag. */
  predicate Readable(c: Config, r: Row) {
    TagVerifies(c, r) && r.requestJson.RequestText? && (r.decisionJson.Some? ==> r.decisionJson.value.DecisionText?)
  }

  function Decide(c: Config, rows: Rows, id: RequestId, d: Decision, now: Time): (Rows, Answer<Decision>) {
    if id !in rows then (rows, Raised(UnknownRequest))
    else if !Readable(c, rows[id]) then (rows, Raised(TamperedRecord))
    else
      var row := rows[id];
      var request := row.requestJson.request;
      if row.status == Consumed then (rows, Raised(DecideConsumed))
      else if Expired(request.expiresAt, now) then (rows, Raised(DecideExpired))
      else match BindTo(d, request, now)
        case Refused(e) => (rows, Raised(e))
        case Done(bound, _) =>
          if row.status == Decided then
            if row.decisionJson == Some(DecisionText(bound)) then (rows, Granted(bound)) else (rows, Raised(DecideAgain))
          else if row.status != Pending then (rows, Raised(DecideChanged))
          else
            var json := Some(DecisionText(bound));
            var tag := RecordTag(c, RequestText(request), json, Decided, None, None, None);
            (rows[id := row.(decisionJson := json, status := Decided, tag := tag)], Granted(bound))
  }

  datatype ReserveArgs = ReserveArgs(request: Request, leaseSeconds: int, token: Token,
                                     requestNow: Time, decisionNow: Time, now: Time)

  /** WHERE clause of the reserving update. */
  predicate MayReserve(row: Row, now: Time) {
    row.status == Decided && (row.token.None? || (row.reservedUntil.Some? && row.reservedUntil.value <= now))
  }

  function Reserve(c: Config, rows: Rows, q: ReserveArgs): (Rows, Answer<Decision>) {
    var id := q.request.id;
    if q.leaseSeconds <= 0 then (rows, Raised(BadLease))
    else if id !in rows then (rows, Denied(NotFound))
    else if !Readable(c, rows[id]) then (rows, Raised(TamperedRecord))
    else
      var row := rows[id];
      var stored := row.requestJson.request;
      if ValidateRequest(stored, q.request).Some? then (rows, Denied(ValidateRequest(stored, q.request).value))
      else if row.status == Consumed then (rows, Denied(AlreadyConsumed))
      else if Expired(stored.expiresAt, q.requestNow) then (rows, Denied(RequestExpired))
      else if row.decisionJson.None? then (rows, Denied(DecisionPending))
      else if Expired(row.decisionJson.value.decision.expiresAt, q.decisionNow) then (rows, Denied(DecisionExpired))
      else if row.token.Some? && !ReservationIsOver(row.reservedUntil, q.now) then (rows, Denied(AlreadyReserved))
      else if !MayReserve(row, q.now) then (rows, Denied(ReservedConcurrently))
      else
        var until := Some(q.now + q.leaseSeconds);
        var tag := RecordTag(c, RequestText(stored), row.decisionJson, Decided, row.consumedAt, Some(q.token), until);
        (rows[id := row.(token := Some(q.token), reservedUntil := until, tag := tag)],
         Granted(row.decisionJson.value.decision))
  }

  /** Drop the reservation; the tag is that of a decided row without one. */
  function Cleared(c: Config, row: Row): Row
    requires row.requestJson.RequestText?
  {
    if row.status != Decided || row.token.None? then row
    else
      row.(token := None, reservedUntil := None,
           tag := RecordTag(c, RequestText(row.requestJson.request), row.decisionJson, Decided, row.consumedAt, None, None))
  }

  function Commit(c: Config, rows: Rows, r: Request, token: Token, now: Time): (Rows, Answer<Decision>) {
    if r.id !in rows then (rows, Denied(NotFound))
    else if !Readable(c, rows[r.id]) then (rows, Raised(TamperedRecord))
    else
      var row := rows[r.id];
      var stored := row.requestJson.request;
      if ValidateRequest(stored, r).Some? then (rows, Denied(ValidateRequest(stored, r).value))
      else if row.status == Consumed then (rows, Denied(AlreadyConsumed))
      else if row.token != Some(token) then (rows, Denied(ReservationMismatch))
      else if ReservationIsOver(row.reservedUntil, now) then
        (rows[r.id := Cleared(c, row)], Denied(ReservationExpired))
      else if row.status != Decided || row.decisionJson.None? then (rows, Denied(ChangedBeforeCommit))
      else
        var tag := RecordTag(c, RequestText(stored), row.decisionJson, Consumed, Some(now), None, None);
        (rows[r.id := row.(status := Consumed, consumedAt := Some(now), token := None, reservedUntil := None, tag := tag)],
         Granted(row.decisionJson.value.decision))
  }

  function Release(c: Config, rows: Rows, id: RequestId, token: Token): (Rows, Answer<bool>) {
    if id !in rows then (rows, Granted(false))
    else if !Readable(c, rows[id]) then (rows, Raised(TamperedRecord))
    else
      var row := rows[id];
      if row.status == Consumed || row.token != Some(token) then (rows, Granted(false))
      else (rows[id := Cleared(c, row)], Granted(row.status == Decided))
  }
}
