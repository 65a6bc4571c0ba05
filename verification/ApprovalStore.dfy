/** The approval store object: each call is one transaction on its rows. */
module ApprovalStore {
  import opened Basics
  import A = Approvals
  import opened Approvals
  import opened ApprovalRuns

  class SqliteApprovalStore {
    const config: Config
    var rows: Rows

    /** Every row the store wrote reads back. */
    ghost predicate Valid()
      reads this
    {
      RowsOk(config, rows)
    }

    constructor (config: Config)
      ensures Valid() && this.config == config && rows == map[]
    {
      this.config, rows := config, map[];
    }

    /** Opens a request once; afterwards the stored request and the presented one are the same as far
        as later calls compare them, or the call has raised. */
    method OpenPending(r: Request) returns (answer: Answer<()>)
      requires Valid()
      modifies this
      ensures Valid() && (rows, answer) == A.OpenPending(config, old(rows), r)
      ensures r.id in rows && (answer.Granted? <==> SameOnComparedFields(rows[r.id].requestJson.request, r))
      ensures forall id | id in old(rows) :: id in rows && rows[id] == old(rows)[id]
      ensures forall id | id in rows :: id in old(rows) || (id == r.id && rows[id].status == Pending)
      ensures r.id !in old(rows) ==>
                var stored := rows[r.id].requestJson.request;
                stored == if config.storeArguments then r else r.(arguments := config.noArguments, argumentsRedacted := true)
    {
      ApplyKeepsRows(config, rows, PendingCall(r));
      if r.id !in rows {
        var json := RequestText(StoredRequest(config, r));
        rows := rows[r.id := Row(json, None, Pending, None, RecordTag(config, json, None, Pending, None, None, None),
                                 None, None)];
        return Granted(());
      }
      var denial := ValidateRequest(rows[r.id].requestJson.request, r);
      answer := if denial.Some? then Raised(RequestReused(denial.value)) else Granted(());
    }

    /** SELECT one row and verify its tag. */
    method Get(id: RequestId) returns (row: Option<Row>, tampered: bool)
      ensures row.Some? <==> id in rows && Readable(config, rows[id])
      ensures row.Some? ==> row.value == rows[id]
      ensures tampered <==> id in rows && !Readable(config, rows[id])
    {
      if id !in rows {
        return None, false;
      }
      tampered := !Readable(config, rows[id]);
      row := if tampered then None else Some(rows[id]);
    }

    /** Binds one decision to a live request: granted exactly when it fits the request and no other is
        stored.  The decision returned and stored is the approver's own, bound to the request. */
    method Decide(id: RequestId, d: Decision, now: Time) returns (answer: Answer<Decision>)
      requires Valid()
      modifies this
      ensures Valid() && (rows, answer) == A.Decide(config, old(rows), id, d, now)
      ensures answer.Granted? <==> MayDecide(old(rows), id, d, now)
      ensures answer.Granted? ==>
                && id in rows && rows[id].status == Decided && rows[id].decisionJson == Some(DecisionText(answer.value))
                && BoundFrom(d, rows[id].requestJson.request, answer.value)
      ensures !answer.Granted? || (id in old(rows) && old(rows)[id].status == Decided) ==> rows == old(rows)
      ensures forall j | j != id :: (j in rows <==> j in old(rows)) && (j in rows ==> rows[j] == old(rows)[j])
    {
      ApplyKeepsRows(config, rows, DecideCall(id, d, now));
      DecideGrantedIff(config, rows, id, d, now);
      var got, tampered := Get(id);
      if got.None? {
        return Raised(if tampered then TamperedRecord else UnknownRequest);
      }
      var row := got.value;
      var request := row.requestJson.request;
      if row.status == Consumed {
        return Raised(DecideConsumed);
      }
      if Expired(request.expiresAt, now) {
        return Raised(DecideExpired);
      }
      var bound := BindTo(d, request, now);
      if bound.Refused? {
        return Raised(bound.error);
      }
      if row.status == Decided {
        return if row.decisionJson == Some(DecisionText(bound.state)) then Granted(bound.state) else Raised(DecideAgain);
      }
      var json := Some(DecisionText(bound.state));
      rows := rows[id := row.(decisionJson := json, status := Decided,
                              tag := RecordTag(config, RequestText(request), json, Decided, None, None, None))];
      answer := Granted(bound.state);
    }

    /** Hands out a token exactly for a decided, unexpired request that nobody holds; until the
        reservation ends, that token commits to the very decision returned. */
    method Reserve(q: ReserveArgs) returns (answer: Answer<Decision>)
      requires Valid()
      modifies this
      ensures Valid() && (rows, answer) == A.Reserve(config, old(rows), q)
      ensures answer.Granted? <==> MayBeReserved(old(rows), q)
      ensures answer.Granted? ==>
                forall now | now < q.now + q.leaseSeconds :: A.Commit(config, rows, q.request, q.token, now).1 == answer
      ensures !answer.Granted? ==> rows == old(rows)
    {
      ApplyKeepsRows(config, rows, ReserveCall(q));
      ReserveGrantedIff(config, rows, q);
      if A.Reserve(config, rows, q).1.Granted? {
        forall now | now < q.now + q.leaseSeconds
          ensures A.Commit(config, A.Reserve(config, rows, q).0, q.request, q.token, now).1 == A.Reserve(config, rows, q).1
        {
          ReservationCanCommit(config, rows, q, now);
        }
      }
      if q.leaseSeconds <= 0 {
        return Raised(BadLease);
      }
      var got, tampered := Get(q.request.id);
      if got.None? {
        return if tampered then Raised(TamperedRecord) else Denied(NotFound);
      }
      var row := got.value;
      var stored := row.requestJson.request;
      var denial := ValidateRequest(stored, q.request);
      if denial.Some? {
        return Denied(denial.value);
      }
      if row.status == Consumed {
        return Denied(AlreadyConsumed);
      }
      if Expired(stored.expiresAt, q.requestNow) {
        return Denied(RequestExpired);
      }
      if row.decisionJson.None? {
        return Denied(DecisionPending);
      }
      var decision := row.decisionJson.value.decision;
      if Expired(decision.expiresAt, q.decisionNow) {
        return Denied(DecisionExpired);
      }
      if row.token.Some? && !ReservationIsOver(row.reservedUntil, q.now) {
        return Denied(AlreadyReserved);
      }
      if !MayReserve(row, q.now) {
        return Denied(ReservedConcurrently);
      }
      var until := Some(q.now + q.leaseSeconds);
      rows := rows[q.request.id := row.(token := Some(q.token), reservedUntil := until,
                                        tag := RecordTag(config, RequestText(stored), row.decisionJson, Decided,
                                                         row.consumedAt, Some(q.token), until))];
      answer := Granted(decision);
    }

    /** Spends the approval exactly for the stored request with the current token in time; after that
        no commit of the request, with any token at any time, is granted again. */
    method Commit(r: Request, token: Token, now: Time) returns (answer: Answer<Decision>)
      requires Valid()
      modifies this
      ensures Valid() && (rows, answer) == A.Commit(config, old(rows), r, token, now)
      ensures answer.Granted? <==>
                && r.id in old(rows) && SameOnComparedFields(old(rows)[r.id].requestJson.request, r)
                && old(rows)[r.id].token == Some(token) && now < old(rows)[r.id].reservedUntil.value
      ensures answer.Granted? ==>
                && old(rows)[r.id].decisionJson == Some(DecisionText(answer.value))
                && r.id in rows && rows[r.id].status == Consumed && rows[r.id].consumedAt == Some(now)
                && forall r': Request, token', now' | r'.id == r.id :: !A.Commit(config, rows, r', token', now').1.Granted?
      ensures !answer.Granted? ==>
                || rows == old(rows)
                || (&& r.id in old(rows) && old(rows)[r.id].reservedUntil.Some? && old(rows)[r.id].reservedUntil.value <= now
                    && r.id in rows && rows == old(rows)[r.id := rows[r.id]]
                    && rows[r.id] == old(rows)[r.id].(token := None, reservedUntil := None, tag := rows[r.id].tag))
    {
      ApplyKeepsRows(config, rows, CommitCall(r, token, now));
      CommitGrantedIff(config, rows, r, token, now);
      if A.Commit(config, rows, r, token, now).1.Granted? {
        ghost var after := A.Commit(config, rows, r, token, now).0;
        forall r': Request, token', now' | r'.id == r.id ensures !A.Commit(config, after, r', token', now').1.Granted? {
          ConsumedIsSpent(config, after, r', token', now');
        }
      }
      var got, tampered := Get(r.id);
      if got.None? {
        return if tampered then Raised(TamperedRecord) else Denied(NotFound);
      }
      var row := got.value;
      var stored := row.requestJson.request;
      var denial := ValidateRequest(stored, r);
      if denial.Some? {
        return Denied(denial.value);
      }
      if row.status == Consumed {
        return Denied(AlreadyConsumed);
      }
      if row.token != Some(token) {
        return Denied(ReservationMismatch);
      }
      if ReservationIsOver(row.reservedUntil, now) {
        rows := rows[r.id := Cleared(config, row)];
        return Denied(ReservationExpired);
      }
      if row.status != Decided || row.decisionJson.None? {
        return Denied(ChangedBeforeCommit);
      }
      rows := rows[r.id := row.(status := Consumed, consumedAt := Some(now), token := None, reservedUntil := None,
                                tag := RecordTag(config, RequestText(stored), row.decisionJson, Consumed, Some(now),
                                                 None, None))];
      answer := Granted(row.decisionJson.value.decision);
    }

    /** Gives a reservation back: exactly the current one, and only its token and its end go. */
    method Release(id: RequestId, token: Token) returns (answer: Answer<bool>)
      requires Valid()
      modifies this
      ensures Valid() && (rows, answer) == A.Release(config, old(rows), id, token)
      ensures answer == Granted(id in old(rows) && old(rows)[id].token == Some(token))
      ensures answer.value ==> id in rows && rows[id] == old(rows)[id].(token := None, reservedUntil := None, tag := rows[id].tag)
      ensures !answer.value ==> rows == old(rows)
    {
      ApplyKeepsRows(config, rows, ReleaseCall(id, token));
      var got, tampered := Get(id);
      if got.None? {
        return if tampered then Raised(TamperedRecord) else Granted(false);
      }
      var row := got.value;
      if row.status == Consumed || row.token != Some(token) {
        return Granted(false);
      }
      rows := rows[id := Cleared(config, row)];
      answer := Granted(row.status == Decided);
    }

    /** Reserve for thirty seconds and commit at once. */
    method Consume(q: ReserveArgs, now: Time) returns (answer: Answer<Decision>)
      requires Valid() && q.leaseSeconds == 30
      modifies this
      ensures Valid()
      ensures answer.Granted? ==>
                && q.request.id in old(rows) && old(rows)[q.request.id].status == Decided
                && old(rows)[q.request.id].decisionJson == Some(DecisionText(answer.value))
                && q.request.id in rows && rows[q.request.id].status == Consumed
      ensures answer.Granted? <==> A.Reserve(config, old(rows), q).1.Granted? && now < q.now + 30
    {
      answer := Reserve(q);
      if answer.Granted? {
        answer := Commit(q.request, q.token, now);
      }
    }
  }

  /** Serving any calls one after the other on a new store reaches exactly the rows of that run, so
      what holds of every run holds of what the object can hold. */
  method ServeAll(config: Config, steps: seq<Step>) returns (store: SqliteApprovalStore)
    ensures fresh(store) && store.config == config && store.Valid()
    ensures store.rows == RunFrom(config, BEGINNING, steps).rows
  {
    store := new SqliteApprovalStore(config);
    ghost var w := BEGINNING;
    for i := 0 to |steps|
      invariant fresh(store) && store.config == config && store.Valid()
      invariant store.rows == w.rows && RunFrom(config, w, steps[i..]) == RunFrom(config, BEGINNING, steps)
    {
      assert steps[i..][1..] == steps[i + 1..];
      w := Next(config, w, steps[i]);
      match steps[i]
      case PendingCall(r) => var _ := store.OpenPending(r);
      case DecideCall(id, d, now) => var _ := store.Decide(id, d, now);
      case ReserveCall(q) => var _ := store.Reserve(q);
      case CommitCall(r, token, now) => var _ := store.Commit(r, token, now);
      case ReleaseCall(id, token) => var _ := store.Release(id, token);
    }
    assert steps[|steps|..] == [];
  }
}
