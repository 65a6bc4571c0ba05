/** Runs of the approval store: any interleaving of calls by any number of processes. */
module ApprovalRuns {
  import opened Basics
  import opened Approvals

  datatype Step =
    | PendingCall(request: Request)
    | DecideCall(id: RequestId, decision: Decision, now: Time)
    | ReserveCall(q: ReserveArgs)
    | CommitCall(request: Request, token: Token, now: Time)
    | ReleaseCall(id: RequestId, token: Token)

  function Apply(c: Config, rows: Rows, s: Step): Rows {
    match s
    case PendingCall(r) => OpenPending(c, rows, r).0
    case DecideCall(id, d, now) => Decide(c, rows, id, d, now).0
    case ReserveCall(q) => Reserve(c, rows, q).0
    case CommitCall(r, token, now) => Commit(c, rows, r, token, now).0
    case ReleaseCall(id, token) => Release(c, rows, id, token).0
  }

  /** What a step did, for the record. */
  datatype Effect =
    | Opened(id: RequestId, request: Request)
    | Bound(id: RequestId, decision: Decision)
    | Reserved(id: RequestId, token: Token, until: Time)
    | Spent(id: RequestId, token: Token, request: Request, decision: Decision, now: Time)
    | Nothing

  function EffectOf(c: Config, rows: Rows, s: Step): Effect {
    match s
    case PendingCall(r) => if r.id in rows then Nothing else Opened(r.id, r)
    case DecideCall(id, d, now) =>
      if Decide(c, rows, id, d, now).1.Granted? then Bound(id, d) else Nothing
    case ReserveCall(q) =>
      if Reserve(c, rows, q).1.Granted? then Reserved(q.request.id, q.token, q.now + q.leaseSeconds) else Nothing
    case CommitCall(r, token, now) =>
      var a := Commit(c, rows, r, token, now).1;
      if a.Granted? then Spent(r.id, token, r, a.value, now) else Nothing
    case ReleaseCall(_, _) => Nothing
  }

  datatype World = World(rows: Rows, hist: seq<Effect>)

  function Next(c: Config, w: World, s: Step): World {
    World(Apply(c, w.rows, s), w.hist + [EffectOf(c, w.rows, s)])
  }

  function RunFrom(c: Config, w: World, steps: seq<Step>): World
    decreases |steps|
  {
    if steps == [] then w else RunFrom(c, Next(c, w, steps[0]), steps[1..])
  }

  const BEGINNING := World(map[], [])

  // ---------------------------------------------------------------- rows

  /** A decision exists once decided, a reservation only while decided, and the tag verifies. */
  predicate RowOk(c: Config, r: Row) {
    && Readable(c, r)
    && (r.status == Pending <==> r.decisionJson.None?)
    && (r.token.Some? ==> r.status == Decided)
    && (r.token.Some? <==> r.reservedUntil.Some?)
    && (r.status == Consumed <==> r.consumedAt.Some?)
  }

  predicate RowsOk(c: Config, rows: Rows) {
    forall id | id in rows :: RowOk(c, rows[id]) && rows[id].requestJson.request.id == id
  }

  lemma ApplyKeepsRows(c: Config, rows: Rows, s: Step)
    requires RowsOk(c, rows)
    ensures RowsOk(c, Apply(c, rows, s))
  {
  }

  /** The answers "reserved concurrently", "changed before commit" and "state changed before
      decision", and the integrity failure, never come out of rows the store wrote. */
  lemma NoConcurrentAnswers(c: Config, rows: Rows, id: RequestId, d: Decision, q: ReserveArgs, r: Request, token: Token, now: Time)
    requires RowsOk(c, rows)
    ensures Reserve(c, rows, q).1 != Denied(ReservedConcurrently) && Reserve(c, rows, q).1 != Raised(TamperedRecord)
    ensures Commit(c, rows, r, token, now).1 != Denied(ChangedBeforeCommit)
    ensures Commit(c, rows, r, token, now).1 != Raised(TamperedRecord)
    ensures Decide(c, rows, id, d, now).1 != Raised(DecideChanged) && Decide(c, rows, id, d, now).1 != Raised(TamperedRecord)
    ensures OpenPending(c, rows, r).1 != Raised(TamperedRecord) && Release(c, rows, id, token).1 != Raised(TamperedRecord)
  {
    if q.request.id in rows {
      assert RowOk(c, rows[q.request.id]);
    }
    if r.id in rows {
      assert RowOk(c, rows[r.id]);
    }
    if id in rows {
      assert RowOk(c, rows[id]);
    }
  }

  /** The request comparison compares exactly nine fields. */
  predicate SameOnComparedFields(x: Request, y: Request) {
    && x.actionDigest == y.actionDigest && x.tool == y.tool && x.argumentsDigest == y.argumentsDigest
    && x.policyVersion == y.policyVersion && x.policyDigest == y.policyDigest && x.subject == y.subject
    && x.tenant == y.tenant && x.identityIssuer == y.identityIssuer && x.risk == y.risk
  }

  lemma ValidateIsSameness(c: Config, first: Request, r: Request)
    ensures ValidateRequest(StoredRequest(c, first), r).None? <==> SameOnComparedFields(first, r)
  {
  }

  /** A commit is granted exactly for the stored request, with the current token, in time. */
  lemma CommitGrantedIff(c: Config, rows: Rows, r: Request, token: Token, now: Time)
    requires RowsOk(c, rows)
    ensures Commit(c, rows, r, token, now).1.Granted? <==>
              && r.id in rows
              && SameOnComparedFields(rows[r.id].requestJson.request, r)
              && rows[r.id].token == Some(token)
              && now < rows[r.id].reservedUntil.value
  {
    if r.id in rows {
      assert RowOk(c, rows[r.id]);
    }
  }

  predicate Live(expiresAt: Option<Time>, now: Time) {
    expiresAt.None? || now < expiresAt.value
  }

  /** A decision may leave a field of its scope open, but not name another value. */
  predicate NamesOnly(s: Scope, r: Request) {
    && s.requestId in {None, Some(r.id)} && s.tool in {None, Some(r.tool)}
    && s.argumentsDigest in {None, Some(r.argumentsDigest)} && s.risk in {None, Some(r.risk)}
    && s.policyVersion in {None, r.policyVersion} && s.policyDigest in {None, r.policyDigest}
    && s.subject in {None, r.subject} && s.tenant in {None, r.tenant}
    && s.identityIssuer in {None, r.identityIssuer} && s.actionDigest in {None, r.actionDigest}
  }

  /** `d` is what the approver passed, with every field of the request in its scope, and with the
      request's expiry where the approver gave none. */
  predicate BoundFrom(passed: Decision, r: Request, d: Decision) {
    d == Decision(passed.allow, passed.reason, passed.source, passed.decisionId, passed.approver, passed.issuedAt,
                  if passed.expiresAt.Some? then passed.expiresAt else r.expiresAt,
                  Scope(Some(r.id), Some(r.tool), Some(r.argumentsDigest), Some(r.risk), r.policyVersion, r.policyDigest,
                        r.subject, r.tenant, r.identityIssuer, r.actionDigest))
  }

  /** The request is live and unspent, the decision fits it and ends no later, and no other decision
      is stored. */
  predicate MayDecide(rows: Rows, id: RequestId, d: Decision, now: Time) {
    && id in rows
    && var row := rows[id];
    && row.status != Consumed && row.requestJson.RequestText?
    && var r := row.requestJson.request;
    && Live(r.expiresAt, now) && NamesOnly(d.scope, r)
    && (d.expiresAt.Some? && r.expiresAt.Some? ==> d.expiresAt.value <= r.expiresAt.value)
    && (row.decisionJson.Some? ==> row.decisionJson.value.DecisionText? && BoundFrom(d, r, row.decisionJson.value.decision))
  }

  /** A decision is granted exactly then, and the one stored is the one passed, bound to the request. */
  lemma DecideGrantedIff(c: Config, rows: Rows, id: RequestId, d: Decision, now: Time)
    requires RowsOk(c, rows)
    ensures var (rows', a) := Decide(c, rows, id, d, now);
            && (a.Granted? <==> MayDecide(rows, id, d, now))
            && (a.Granted? ==>
                  && BoundFrom(d, rows[id].requestJson.request, a.value)
                  && id in rows' && rows' == rows[id := rows'[id]]
                  && rows'[id] == rows[id].(decisionJson := Some(DecisionText(a.value)), status := Decided, tag := rows'[id].tag))
            && (!a.Granted? ==> rows' == rows)
  {
    if id in rows {
      assert RowOk(c, rows[id]);
      BindingFits(d, rows[id].requestJson.request, now);
    }
  }

  lemma BindingFits(d: Decision, r: Request, now: Time)
    ensures var b := BindTo(d, r, now);
            && (b.Done? <==> NamesOnly(d.scope, r)
                             && (d.expiresAt.Some? && r.expiresAt.Some? ==> d.expiresAt.value <= r.expiresAt.value))
            && (b.Done? && Live(r.expiresAt, now) ==> BoundFrom(d, r, b.state))
  {
  }

  /** A reservation is granted exactly for a decided, unexpired request that nobody holds. */
  predicate MayBeReserved(rows: Rows, q: ReserveArgs) {
    && q.leaseSeconds > 0
    && q.request.id in rows
    && var row := rows[q.request.id];
    && row.requestJson.RequestText? && SameOnComparedFields(row.requestJson.request, q.request)
    && row.status == Decided && row.decisionJson.Some? && row.decisionJson.value.DecisionText?
    && Live(row.requestJson.request.expiresAt, q.requestNow)
    && Live(row.decisionJson.value.decision.expiresAt, q.decisionNow)
    && (row.token.None? || row.reservedUntil.None? || row.reservedUntil.value <= q.now)
  }

  lemma ReserveGrantedIff(c: Config, rows: Rows, q: ReserveArgs)
    requires RowsOk(c, rows)
    ensures Reserve(c, rows, q).1.Granted? <==> MayBeReserved(rows, q)
  {
    if q.request.id in rows {
      assert RowOk(c, rows[q.request.id]);
    }
  }

  /** The token handed out is good for a commit at any time before the reservation ends. */
  lemma ReservationCanCommit(c: Config, rows: Rows, q: ReserveArgs, now: Time)
    requires RowsOk(c, rows) && Reserve(c, rows, q).1.Granted? && now < q.now + q.leaseSeconds
    ensures Commit(c, Reserve(c, rows, q).0, q.request, q.token, now).1 == Reserve(c, rows, q).1
  {
    assert RowOk(c, rows[q.request.id]);
    ApplyKeepsRows(c, rows, ReserveCall(q));
    CommitGrantedIff(c, Reserve(c, rows, q).0, q.request, q.token, now);
  }

  /** Nothing can be committed out of a consumed row. */
  lemma ConsumedIsSpent(c: Config, rows: Rows, r: Request, token: Token, now: Time)
    requires RowsOk(c, rows) && r.id in rows && rows[r.id].status == Consumed
    ensures !Commit(c, rows, r, token, now).1.Granted?
  {
    assert RowOk(c, rows[r.id]);
  }

  // ---------------------------------------------------------------- rows and the record

  predicate WasOpened(hist: seq<Effect>, id: RequestId, stored: Request, c: Config) {
    exists i | 0 <= i < |hist| :: hist[i].Opened? && hist[i].id == id && stored == StoredRequest(c, hist[i].request)
  }

  /** Some approver passed a decision that binds to this one. */
  predicate WasBound(hist: seq<Effect>, id: RequestId, stored: Request, d: Decision) {
    exists i | 0 <= i < |hist| :: hist[i].Bound? && hist[i].id == id && BoundFrom(hist[i].decision, stored, d)
  }

  predicate ReservesAt(hist: seq<Effect>, i: nat, id: RequestId) {
    i < |hist| && hist[i].Reserved? && hist[i].id == id
  }

  /** `i` is the latest reservation of the request. */
  predicate IsLatest(hist: seq<Effect>, i: nat, id: RequestId) {
    ReservesAt(hist, i, id) && forall j: nat | j < |hist| && ReservesAt(hist, j, id) :: j <= i
  }

  predicate CurrentReservation(hist: seq<Effect>, id: RequestId, token: Token, until: Time) {
    exists i: nat | i < |hist| :: IsLatest(hist, i, id) && hist[i] == Reserved(id, token, until)
  }

  predicate WasSpent(hist: seq<Effect>, id: RequestId) {
    exists i | 0 <= i < |hist| :: hist[i].Spent? && hist[i].id == id
  }

  predicate Explained(c: Config, hist: seq<Effect>, id: RequestId, r: Row) {
    && r.requestJson.RequestText? && WasOpened(hist, id, r.requestJson.request, c)
    && (r.decisionJson.Some? ==> r.decisionJson.value.DecisionText?
                                  && WasBound(hist, id, r.requestJson.request, r.decisionJson.value.decision))
    && (r.token.Some? && r.reservedUntil.Some? ==> CurrentReservation(hist, id, r.token.value, r.reservedUntil.value))
  }

  ghost predicate WorldOk(c: Config, w: World) {
    && RowsOk(c, w.rows)
    && (forall id | id in w.rows :: Explained(c, w.hist, id, w.rows[id]))
    && (forall id :: WasSpent(w.hist, id) ==> id in w.rows && w.rows[id].status == Consumed)
  }

  lemma HistoryGrows(c: Config, hist: seq<Effect>, e: Effect, id: RequestId, r: Row)
    requires Explained(c, hist, id, r)
    requires e.Reserved? && e.id == id ==> r.token.None?
    ensures Explained(c, hist + [e], id, r)
  {
    var hist' := hist + [e];
    var i :| 0 <= i < |hist| && hist[i].Opened? && hist[i].id == id && r.requestJson.request == StoredRequest(c, hist[i].request);
    assert hist'[i] == hist[i];
    if r.decisionJson.Some? {
      var j :| 0 <= j < |hist| && hist[j].Bound? && hist[j].id == id
               && BoundFrom(hist[j].decision, r.requestJson.request, r.decisionJson.value.decision);
      assert hist'[j] == hist[j];
    }
    if r.token.Some? && r.reservedUntil.Some? {
      ReservationStays(hist, e, id, r.token.value, r.reservedUntil.value);
    }
  }

  lemma ReservationStays(hist: seq<Effect>, e: Effect, id: RequestId, token: Token, until: Time)
    requires CurrentReservation(hist, id, token, until) && !(e.Reserved? && e.id == id)
    ensures CurrentReservation(hist + [e], id, token, until)
  {
    var hist' := hist + [e];
    var k: nat :| k < |hist| && IsLatest(hist, k, id) && hist[k] == Reserved(id, token, until);
    assert hist'[k] == hist[k];
    forall j: nat | ReservesAt(hist', j, id) ensures j <= k {
      assert ReservesAt(hist, j, id);
    }
  }

  lemma NewReservation(hist: seq<Effect>, id: RequestId, token: Token, until: Time)
    ensures CurrentReservation(hist + [Reserved(id, token, until)], id, token, until)
  {
    assert IsLatest(hist + [Reserved(id, token, until)], |hist|, id);
  }

  // ---------------------------------------------------------------- one step

  /** The row a step addresses. */
  function Target(s: Step): RequestId {
    match s
    case PendingCall(r) => r.id
    case DecideCall(id, _, _) => id
    case ReserveCall(q) => q.request.id
    case CommitCall(r, _, _) => r.id
    case ReleaseCall(id, _) => id
  }

  lemma OthersUntouched(c: Config, rows: Rows, s: Step, id: RequestId)
    requires id != Target(s)
    ensures id in Apply(c, rows, s) <==> id in rows
    ensures id in rows ==> Apply(c, rows, s)[id] == rows[id]
    ensures EffectOf(c, rows, s).Nothing? || EffectOf(c, rows, s).id == Target(s)
  {
  }

  /** Rows stay, keep their request and decision, and stay consumed. */
  lemma TargetEvolves(c: Config, rows: Rows, s: Step)
    requires Target(s) in rows
    ensures var id := Target(s);
            var rows' := Apply(c, rows, s);
            && id in rows' && rows'[id].requestJson == rows[id].requestJson
            && (rows[id].status == Consumed ==> rows'[id] == rows[id])
  {
  }

  /** What a step does to the row it addresses, by its effect. */
  lemma TargetMoves(c: Config, rows: Rows, s: Step)
    requires Target(s) in rows && RowOk(c, rows[Target(s)])
    ensures var id, e := Target(s), EffectOf(c, rows, s);
            && id in Apply(c, rows, s)
            && var row, row' := rows[id], Apply(c, rows, s)[id];
            && row'.requestJson == row.requestJson
            && (!e.Bound? ==> row'.decisionJson == row.decisionJson)
            && (if e.Reserved? then e.id == id && row'.token == Some(e.token) && row'.reservedUntil == Some(e.until)
                else row'.token.None? || (row'.token == row.token && row'.reservedUntil == row.reservedUntil))
  {
  }

  /** A decision that was bound explains the row it is stored in. */
  lemma BoundExplained(c: Config, w: World, s: Step)
    requires RowsOk(c, w.rows) && EffectOf(c, w.rows, s).Bound?
    ensures var id, rows' := Target(s), Apply(c, w.rows, s);
            && id in w.rows && id in rows' && rows'[id].decisionJson.Some? && rows'[id].decisionJson.value.DecisionText?
            && rows'[id].requestJson.RequestText?
            && WasBound(w.hist + [EffectOf(c, w.rows, s)], id, rows'[id].requestJson.request, rows'[id].decisionJson.value.decision)
  {
    DecideGrantedIff(c, w.rows, s.id, s.decision, s.now);
    assert (w.hist + [EffectOf(c, w.rows, s)])[|w.hist|] == Bound(s.id, s.decision);
  }

  lemma TargetExplained(c: Config, w: World, s: Step)
    requires RowsOk(c, w.rows) && Target(s) in w.rows && Explained(c, w.hist, Target(s), w.rows[Target(s)])
    ensures var w' := Next(c, w, s); Target(s) in w'.rows && Explained(c, w'.hist, Target(s), w'.rows[Target(s)])
  {
    var id, e := Target(s), EffectOf(c, w.rows, s);
    assert RowOk(c, w.rows[id]);
    TargetMoves(c, w.rows, s);
    if e.Bound? {
      BoundExplained(c, w, s);
    }
    RowExplained(c, w.hist, e, id, w.rows[id], Apply(c, w.rows, s)[id]);
  }

  lemma RowExplained(c: Config, hist: seq<Effect>, e: Effect, id: RequestId, row: Row, row': Row)
    requires Explained(c, hist, id, row) && row'.requestJson == row.requestJson
    requires if e.Bound? then row'.decisionJson.Some? && row'.decisionJson.value.DecisionText?
                              && WasBound(hist + [e], id, row'.requestJson.request, row'.decisionJson.value.decision)
             else row'.decisionJson == row.decisionJson
    requires if e.Reserved? then e.id == id && row'.token == Some(e.token) && row'.reservedUntil == Some(e.until)
             else row'.token.None? || (row'.token == row.token && row'.reservedUntil == row.reservedUntil)
    ensures Explained(c, hist + [e], id, row')
  {
    HistoryGrows(c, hist, e, id, row.(token := None, reservedUntil := None));
    if e.Reserved? {
      NewReservation(hist, id, e.token, e.until);
    } else if row'.token.Some? {
      HistoryGrows(c, hist, e, id, row);
    }
  }

  lemma OpenedExplained(c: Config, w: World, s: Step)
    requires Target(s) !in w.rows && Target(s) in Apply(c, w.rows, s)
    ensures Explained(c, Next(c, w, s).hist, Target(s), Apply(c, w.rows, s)[Target(s)])
  {
    var e := EffectOf(c, w.rows, s);
    assert (w.hist + [e])[|w.hist|] == e;
  }

  lemma SpentMeansConsumed(c: Config, w: World, s: Step, id: RequestId)
    requires RowsOk(c, w.rows) && WasSpent(Next(c, w, s).hist, id)
    requires WasSpent(w.hist, id) ==> id in w.rows && w.rows[id].status == Consumed
    ensures var rows' := Apply(c, w.rows, s); id in rows' && rows'[id].status == Consumed
  {
    var hist' := Next(c, w, s).hist;
    var i :| 0 <= i < |hist'| && hist'[i].Spent? && hist'[i].id == id;
    if i < |w.hist| {
      assert w.hist[i] == hist'[i];
      if id == Target(s) {
        TargetEvolves(c, w.rows, s);
      } else {
        OthersUntouched(c, w.rows, s, id);
      }
    }
  }

  lemma NextKeeps(c: Config, w: World, s: Step)
    requires WorldOk(c, w)
    ensures WorldOk(c, Next(c, w, s))
  {
    var w' := Next(c, w, s);
    ApplyKeepsRows(c, w.rows, s);
    forall id | id in w'.rows ensures Explained(c, w'.hist, id, w'.rows[id]) {
      if id != Target(s) {
        OthersUntouched(c, w.rows, s, id);
        HistoryGrows(c, w.hist, EffectOf(c, w.rows, s), id, w.rows[id]);
      } else if id in w.rows {
        TargetExplained(c, w, s);
      } else {
        OpenedExplained(c, w, s);
      }
    }
    forall id | WasSpent(w'.hist, id) ensures id in w'.rows && w'.rows[id].status == Consumed {
      SpentMeansConsumed(c, w, s, id);
    }
  }

  // ---------------------------------------------------------------- whole runs

  /** The request was opened at `i` as the one presented now, and the decision of some approver,
      made at `j`, binds to it as the one spent now. */
  predicate Approves(before: seq<Effect>, i: nat, j: nat, e: Effect)
    requires e.Spent?
  {
    && i < |before| && before[i].Opened? && before[i].id == e.id && SameOnComparedFields(before[i].request, e.request)
    && j < |before| && before[j].Bound? && before[j].id == e.id && BoundFrom(before[j].decision, before[i].request, e.decision)
  }

  ghost predicate WasApproved(before: seq<Effect>, e: Effect)
    requires e.Spent?
  {
    exists i: nat, j: nat :: Approves(before, i, j, e)
  }

  ghost predicate InTime(hist: seq<Effect>, id: RequestId, token: Token, now: Time) {
    exists until :: CurrentReservation(hist, id, token, until) && now < until
  }

  /** What has to come before an approval is spent: it was not spent yet, it was opened for the same
      request, an approver passed the decision, and the latest reservation handed out this token and
      is not over. */
  ghost predicate RightlySpent(before: seq<Effect>, e: Effect)
    requires e.Spent?
  {
    && !WasSpent(before, e.id)
    && WasApproved(before, e)
    && InTime(before, e.id, e.token, e.now)
  }

  ghost predicate HistoryOk(hist: seq<Effect>) {
    forall j | 0 <= j < |hist| && hist[j].Spent? :: RightlySpent(hist[..j], hist[j])
  }

  lemma CommitIsRight(c: Config, w: World, r: Request, token: Token, now: Time)
    requires WorldOk(c, w) && Commit(c, w.rows, r, token, now).1.Granted?
    ensures RightlySpent(w.hist, EffectOf(c, w.rows, CommitCall(r, token, now)))
  {
    CommitGrantedIff(c, w.rows, r, token, now);
    var row := w.rows[r.id];
    assert Explained(c, w.hist, r.id, row);
    var i :| 0 <= i < |w.hist| && w.hist[i].Opened? && w.hist[i].id == r.id
             && row.requestJson.request == StoredRequest(c, w.hist[i].request);
    ValidateIsSameness(c, w.hist[i].request, r);
    var j :| 0 <= j < |w.hist| && w.hist[j].Bound? && w.hist[j].id == r.id
             && BoundFrom(w.hist[j].decision, row.requestJson.request, row.decisionJson.value.decision);
    assert Approves(w.hist, i, j, EffectOf(c, w.rows, CommitCall(r, token, now)));
    assert CurrentReservation(w.hist, r.id, token, row.reservedUntil.value);
  }

  lemma {:induction false} RunKeeps(c: Config, w: World, steps: seq<Step>)
    requires WorldOk(c, w) && HistoryOk(w.hist)
    ensures WorldOk(c, RunFrom(c, w, steps)) && HistoryOk(RunFrom(c, w, steps).hist)
    decreases |steps|
  {
    if steps != [] {
      var s := steps[0];
      var w' := Next(c, w, s);
      NextKeeps(c, w, s);
      forall j | 0 <= j < |w'.hist| && w'.hist[j].Spent? ensures RightlySpent(w'.hist[..j], w'.hist[j]) {
        if j < |w.hist| {
          assert w'.hist[..j] == w.hist[..j];
        } else {
          assert w'.hist[..j] == w.hist;
          CommitIsRight(c, w, s.request, s.token, s.now);
        }
      }
      RunKeeps(c, w', steps[1..]);
    }
  }

  /** Single consumption.  In every run each request is spent at most once, only for the request it
      was opened for, with the decision made for it, by the holder of its latest reservation while
      that lasts; a consumed row stays as it is, and every row reads back under its own tag. */
  lemma SingleConsumption(c: Config, steps: seq<Step>)
    ensures var w := RunFrom(c, BEGINNING, steps);
            && (forall i, j | 0 <= i < j < |w.hist| && w.hist[i].Spent? && w.hist[j].Spent? :: w.hist[i].id != w.hist[j].id)
            && (forall j | 0 <= j < |w.hist| && w.hist[j].Spent? :: RightlySpent(w.hist[..j], w.hist[j]))
            && (forall id | id in w.rows :: TagVerifies(c, w.rows[id]))
            && (forall s, id | id in w.rows && w.rows[id].status == Consumed ::
                  id in Apply(c, w.rows, s) && Apply(c, w.rows, s)[id] == w.rows[id])
  {
    RunKeeps(c, BEGINNING, steps);
    var w := RunFrom(c, BEGINNING, steps);
    forall i, j | 0 <= i < j < |w.hist| && w.hist[i].Spent? && w.hist[j].Spent? ensures w.hist[i].id != w.hist[j].id {
      assert RightlySpent(w.hist[..j], w.hist[j]);
      assert w.hist[..j][i] == w.hist[i];
    }
    forall s, id | id in w.rows && w.rows[id].status == Consumed
      ensures id in Apply(c, w.rows, s) && Apply(c, w.rows, s)[id] == w.rows[id]
    {
      if id == Target(s) {
        TargetEvolves(c, w.rows, s);
      } else {
        OthersUntouched(c, w.rows, s, id);
      }
    }
  }
}
