/** The SQLite-backed store and ledger: each public method updates the table fields the way its
    transaction does, and realizes the corresponding operation. */
module DurableStore {
  import opened Basics
  import opened LedgerTypes
  import Ops = Operations
  import opened Operations
  import opened LedgerInvariant
  import opened AttemptDiscipline
  import opened AttemptScan
  import opened LedgerSteps
  import opened Runs
  import opened Ownership
  import opened LedgerTheorems
  import opened StoreAnswers
  import opened LedgerAnswers

  datatype Reply<+V> = Returned(value: V) | Raised(error: Error)

  /** The call committed what the operation says, or raised and left every table alone. */
  ghost predicate Realizes<V>(spec: Committed<V>, before: Tables, reply: Reply<V>, after: Tables) {
    match spec
    case Done(t, v) => after == t && reply == Returned(v)
    case Refused(e) => after == before && reply == Raised(e)
  }

  /** What a row of the key calls for is answered, and another request under the key is refused;
      either way every table stays as it is. */
  predicate AnswersRow(before: Tables, id: ExecId, q: AcquireArgs, reply: Reply<AcquireReply>, after: Tables)
    requires id in before.records
  {
    var r := before.records[id];
    && (SameRequest(r, q) && WellBound(q) && ReplyFor(r, id, q.now).Some? ==>
          reply == Returned(ReplyFor(r, id, q.now).value) && after == before)
    && (HasKey(r, q.namespace, q.key) && r.fingerprint != q.fingerprint ==> reply.Raised? && after == before)
  }

  lemma RealizedAnswers(t: Tables, id: ExecId, q: AcquireArgs, reply: Reply<AcquireReply>, t': Tables)
    requires RecordsOk(t.records) && id in t.records && Realizes(Ops.Acquire(t, q), t, reply, t')
    ensures AnswersRow(t, id, q, reply, t')
  {
    var r := t.records[id];
    if SameRequest(r, q) && WellBound(q) && ReplyFor(r, id, q.now).Some? {
      AnswersByState(t, q, id);
    } else if HasKey(r, q.namespace, q.key) && r.fingerprint != q.fingerprint {
      OtherRequestsRefused(t, q, id);
    }
  }

  class Store {
    var records: map<ExecId, Record>
    var prepared: map<ExecId, Action>
    var heads: map<ExecId, Head>
    var events: map<ExecId, seq<Event>>
    var outbox: map<OutboxId, Envelope>

    ghost function Contents(): Tables
      reads this
    {
      Tables(records, prepared, heads, events, outbox)
    }

    ghost predicate Valid()
      reads this
    {
      Inv(Contents())
    }

    constructor ()
      ensures Contents() == EMPTY && Valid()
    {
      records, prepared, heads, events, outbox := map[], map[], map[], map[], map[];
    }

    // -------------------------------------------------------------- audit outbox rows

    method Enqueue(h: Head, auditType: AuditType, d: Detail, drawn: OutboxId) returns (failure: Option<Error>)
      modifies this`outbox
      ensures match Ops.Enqueue(old(outbox), h, auditType, d, drawn)
              case Done(after, _) => outbox == after && failure.None?
              case Refused(e) => outbox == old(outbox) && failure == Some(e)
    {
      var p := PayloadFor(h, auditType, d);
      if exists o | o in outbox :: SameSlot(outbox[o], h.action.execId, h.revision, auditType) {
        if exists o | o in outbox :: SameSlot(outbox[o], h.action.execId, h.revision, auditType) && outbox[o].payload != p {
          return Some(OutboxConflict);
        }
        return None;
      }
      if drawn in outbox {
        return Some(IntegrityError);
      }
      outbox := outbox[drawn := Envelope(h.action.execId, h.revision, auditType, p, None, 0)];
      failure := None;
    }

    /** INSERT of an UNKNOWN head, then its audit event. */
    method OpenHead(action: Action, at: Time, drawn: OutboxId) returns (failure: Option<Error>)
      modifies this`heads, this`events, this`outbox
      ensures match Ops.OpenHead(old(Contents()), action, at, drawn)
              case Done(after, _) => Contents() == after && failure.None?
              case Refused(e) => Contents() == old(Contents()) && failure == Some(e)
    {
      var h := FreshHead(action, at);
      failure := Enqueue(h, UnknownRecorded, NO_DETAIL, drawn);
      if failure.None? {
        heads := heads[action.execId := h];
        events := events[action.execId := []];
      }
    }

    // -------------------------------------------------------------- idempotency store

    method InsertOwner(q: AcquireArgs, generation: int) returns (reply: Reply<AcquireReply>)
      modifies this`records, this`prepared
      ensures Realizes(Ops.InsertOwner(old(Contents()), q, generation), old(Contents()), reply, Contents())
    {
      var id := if q.prepared.Some? then q.prepared.value.execId else q.drawnId;
      if id in records || (q.prepared.Some? && id in prepared) {
        return Raised(IntegrityError);
      }
      records := records[id := PendingRow(q.namespace, q.key, generation, q.fingerprint, q.token,
                                          q.now + q.leaseSeconds, q.now)];
      if q.prepared.Some? {
        prepared := prepared[id := q.prepared.value];
      }
      reply := Returned(Owner(id, generation));
    }

    method ExpireOwner(id: ExecId, q: AcquireArgs) returns (reply: Reply<AcquireReply>)
      requires id in records
      modifies this`records, this`heads, this`events, this`outbox
      ensures Realizes(Ops.ExpireOwner(old(Contents()), id, q), old(Contents()), reply, Contents())
    {
      var row := records[id];
      records := records[id := row.(state := Unknown, error := Some(OwnerLeaseExpired), owner := None, lease := None,
                                    updatedAt := q.now)];
      if id in prepared && id !in heads {
        var failure := OpenHead(prepared[id], q.now, q.outboxId);
        if failure.Some? {
          records := records[id := row];
          assert records == old(records);
          return Raised(failure.value);
        }
      }
      reply := Returned(OutcomeUnknown(id));
    }

    /** The newest generation of a key, if the key has a row. */
    method SelectLatest(ns: Namespace, k: Key) returns (found: Option<ExecId>)
      requires RecordsOk(records)
      ensures found == Latest(records, ns, k)
    {
      if exists id | id in records :: HasKey(records[id], ns, k) {
        ghost var some :| some in records && HasKey(records[some], ns, k);
        LatestFindsARow(records, ns, k, some);
        var id :| id in records && HasKey(records[id], ns, k)
                  && forall j | j in records && HasKey(records[j], ns, k) :: records[j].generation <= records[id].generation;
        found := Some(id);
        ghost var other := Latest(records, ns, k).value;
        assert id != other ==> Ordered(records[id], records[other]);
      } else {
        found := None;
      }
    }

    method AcquireInTransaction(q: AcquireArgs) returns (reply: Reply<AcquireReply>)
      requires RecordsOk(records)
      modifies this
      ensures Realizes(Ops.Acquire(old(Contents()), q), old(Contents()), reply, Contents())
    {
      if q.prepared.Some? && (q.prepared.value.digest != q.fingerprint
                              || q.prepared.value.namespace != NamespaceDigest(q.namespace)) {
        return Raised(InvalidArgument);
      }
      var found := SelectLatest(q.namespace, q.key);
      if found.None? {
        reply := InsertOwner(q, 1);
        return;
      }
      var id := found.value;
      var r := records[id];
      if r.fingerprint != q.fingerprint {
        return Raised(FingerprintConflict);
      }
      match r.state {
        case Completed => reply := Returned(Replay(r.result));
        case Unknown => reply := Returned(OutcomeUnknown(id));
        case ManualReview => reply := Returned(OutcomeUnknown(id));
        case AppliedNoResult => reply := Returned(AlreadyApplied);
        case NotApplied => reply := InsertOwner(q, r.generation + 1);
        case Pending =>
          if r.lease.Some? && r.lease.value <= q.now {
            reply := ExpireOwner(id, q);
          } else {
            reply := Returned(InProgress);
          }
      }
    }

    /** Replies what the key's row calls for, and refuses any other request under the same key. */
    method Acquire(q: AcquireArgs) returns (reply: Reply<AcquireReply>)
      requires RecordsOk(records)
      modifies this
      ensures Realizes(Ops.Acquire(old(Contents()), q), old(Contents()), reply, Contents())
      ensures forall id | id in old(records) :: AnswersRow(old(Contents()), id, q, reply, Contents())
    {
      reply := AcquireInTransaction(q);
      forall id | id in old(records) ensures AnswersRow(old(Contents()), id, q, reply, Contents()) {
        RealizedAnswers(old(Contents()), id, q, reply, Contents());
      }
    }

    /** UPDATE ... WHERE the claim still owns its pending row. */
    method SettleRow(c: Claim, state: RecordState, result: Option<Json>, error: Option<Text>, now: Time)
      returns (updated: bool)
      modifies this`records
      ensures updated == Holds(old(records), c)
      ensures records == if updated then old(records)[c.execId := Settle(old(records)[c.execId], state, result, error, now)]
                         else old(records)
    {
      updated := Holds(records, c);
      if updated {
        var row := records[c.execId];
        records := records[c.execId := row.(state := state, result := result, error := error, owner := None,
                                            lease := None, updatedAt := now)];
      }
    }

    method Complete(c: Claim, result: Json, now: Time) returns (reply: Reply<()>)
      modifies this
      ensures Realizes(Ops.Complete(old(Contents()), c, result, now), old(Contents()), reply, Contents())
      ensures reply.Returned? <==> !c.owner || Holds(old(records), c)
      ensures c.owner && reply.Returned? ==>
                Explains(old(records), Settled(c.token.value, c.execId, ByComplete(result, now)), records)
    {
      if !c.owner {
        return Returned(());
      }
      var updated := SettleRow(c, Completed, Some(result), None, now);
      reply := if updated then Returned(()) else Raised(OwnershipLost);
    }

    method MarkUnknown(c: Claim, error: Text, now: Time) returns (reply: Reply<()>)
      modifies this
      ensures Realizes(Ops.MarkUnknown(old(Contents()), c, error, now), old(Contents()), reply, Contents())
      ensures reply.Returned? <==> !c.owner || Holds(old(records), c)
      ensures c.owner && reply.Returned? ==>
                Explains(old(records), Settled(c.token.value, c.execId, ByMarkUnknown(error, now)), records)
    {
      if !c.owner {
        return Returned(());
      }
      var updated := SettleRow(c, Unknown, None, Some(error), now);
      reply := if updated then Returned(()) else Raised(OwnershipLost);
    }

    method Fail(c: Claim) returns (reply: Reply<()>)
      modifies this
      ensures Realizes(Ops.Fail(old(Contents()), c), old(Contents()), reply, Contents())
      ensures reply.Returned? <==> !c.owner || Holds(old(records), c)
      ensures c.owner && reply.Returned? ==> Explains(old(records), Settled(c.token.value, c.execId, ByFail), records)
    {
      if !c.owner {
        return Returned(());
      }
      if !Holds(records, c) {
        return Raised(OwnershipLost);
      }
      records := records - {c.execId};
      if c.execId !in heads {
        prepared := prepared - {c.execId};
      }
      reply := Returned(());
    }

    method Renew(c: Claim, now: Time, leaseSeconds: int) returns (reply: Reply<()>)
      modifies this
      ensures Realizes(Ops.Renew(old(Contents()), c, now, leaseSeconds), old(Contents()), reply, Contents())
      ensures reply.Returned? <==> c.owner && Holds(old(records), c)
      ensures reply.Returned? ==> Explains(old(records), Renewed(c.token.value, c.execId, now + leaseSeconds, now), records)
    {
      if !c.owner || c.token.None? {
        return Raised(NotOwner);
      }
      if !Holds(records, c) {
        return Raised(OwnershipLost);
      }
      var row := records[c.execId];
      records := records[c.execId := row.(lease := Some(now + leaseSeconds), updatedAt := now)];
      reply := Returned(());
    }

    method PruneCompleted(cutoff: Time) returns (pruned: nat)
      modifies this
      ensures Realizes(Ops.PruneCompleted(old(Contents()), cutoff), old(Contents()), Returned(pruned), Contents())
      ensures pruned == |old(records)| - |records|
      ensures forall id | id in old(records) ::
                if old(records)[id].state == Completed && old(records)[id].updatedAt < cutoff && id !in heads then id !in records
                else id in records && records[id] == old(records)[id]
    {
      PruneTakesExactly(Contents(), cutoff);
      var gone := set id | id in records && records[id].state == Completed && records[id].updatedAt < cutoff && id !in heads;
      assert gone == Prunable(Contents(), cutoff);
      prepared := prepared - gone;
      records := records - gone;
      pruned := |gone|;
    }

    // -------------------------------------------------------------- reconciliation ledger

    method PrepareAction(c: Claim, a: Action) returns (reply: Reply<()>)
      modifies this
      ensures Realizes(Ops.PrepareAction(old(Contents()), c, a), old(Contents()), reply, Contents())
    {
      if ClaimRefusal(c, a).Some? {
        return Raised(ClaimRefusal(c, a).value);
      }
      if c.execId in prepared {
        return if prepared[c.execId] == a then Returned(()) else Raised(PreparedDiffers);
      }
      if !Holds(records, c) {
        return Raised(OwnershipLost);
      }
      prepared := prepared[c.execId := a];
      reply := Returned(());
    }

    method RecordUnknown(c: Claim, a: Action, error: Text, now: Time, drawn: OutboxId) returns (reply: Reply<Head>)
      modifies this
      ensures Realizes(Ops.RecordUnknown(old(Contents()), c, a, error, now, drawn), old(Contents()), reply, Contents())
    {
      if ClaimRefusal(c, a).Some? {
        return Raised(ClaimRefusal(c, a).value);
      }
      var action := a;
      if c.execId in prepared {
        if !SameIdentity(prepared[c.execId], a) {
          return Raised(PreparedIdentityDiffers);
        }
        action := prepared[c.execId];
      }
      var saved := records;
      var updated := SettleRow(c, Unknown, None, Some(error), now);
      if !updated {
        return Raised(OwnershipLost);
      }
      if c.execId in heads {
        records := saved;
        return Raised(HeadExists);
      }
      var failure := OpenHead(action, now, drawn);
      if failure.Some? {
        records := saved;
        return Raised(failure.value);
      }
      reply := Returned(FreshHead(action, now));
    }

    method CreateUnknown(a: Action, drawn: OutboxId) returns (reply: Reply<Head>)
      modifies this
      ensures Realizes(Ops.CreateUnknown(old(Contents()), a, drawn), old(Contents()), reply, Contents())
    {
      if a.execId !in records {
        return Raised(LinkMissing);
      }
      var r := records[a.execId];
      if r.fingerprint != a.digest || NamespaceDigest(r.namespace) != a.namespace {
        return Raised(LinkMismatch);
      }
      if r.state != Unknown {
        return Raised(NotUnknown);
      }
      if a.execId in heads {
        return Raised(HeadExists);
      }
      var failure := OpenHead(a, a.attemptedAt, drawn);
      reply := if failure.Some? then Raised(failure.value) else Returned(FreshHead(a, a.attemptedAt));
    }

    /** Persist one event: the head moves on, the log grows, the audit event is queued. */
    method AppendEvent(id: ExecId, e: Event, auditType: AuditType, d: Detail, drawn: OutboxId)
      returns (failure: Option<Error>)
      requires id in heads && id in events
      modifies this`heads, this`events, this`outbox
      ensures match Ops.Enqueue(old(outbox), Advance(old(heads)[id], e), auditType, d, drawn)
              case Done(after, _) =>
                && failure.None? && outbox == after
                && heads == old(heads)[id := Advance(old(heads)[id], e)]
                && events == old(events)[id := old(events)[id] + [e]]
              case Refused(err) => failure == Some(err) && Contents() == old(Contents())
    {
      var updated := Advance(heads[id], e);
      failure := Enqueue(updated, auditType, d, drawn);
      if failure.None? {
        heads := heads[id := updated];
        events := events[id := events[id] + [e]];
      }
    }

    method AppendAttempt(id: ExecId, p: EventPayload, at: Time, auditType: AuditType, d: Detail, drawn: OutboxId)
      returns (reply: Reply<Event>)
      requires id in heads && id in events && !p.Moved?
      requires p.Started? ==> LogOk(events[id])
      modifies this`heads, this`events, this`outbox
      ensures Realizes(Ops.AppendAttempt(old(Contents()), id, p, at, auditType, d, drawn), old(Contents()), reply, Contents())
    {
      var h := heads[id];
      if p.Started? && h.state != UNKNOWN {
        return Raised(IllegalTransition);
      }
      if p.Started? {
        LogIsPaired(events[id]);
      }
      var refusal := ValidateAttemptAppend(events[id], p);
      if refusal.Some? {
        return Raised(refusal.value);
      }
      var e := AttemptEvent(h, p, at);
      var failure := AppendEvent(id, e, auditType, d, drawn);
      reply := if failure.Some? then Raised(failure.value) else Returned(e);
    }

    method StartAttempt(cx: AttemptContext, p: Provider, expected: nat, now: Time, drawn: OutboxId)
      returns (reply: Reply<Event>)
      requires cx.action.execId in heads && cx.action.execId in events ==> LogOk(events[cx.action.execId])
      modifies this
      ensures Realizes(Ops.StartAttempt(old(Contents()), cx, p, expected, now, drawn), old(Contents()), reply, Contents())
    {
      var id := cx.action.execId;
      if AttemptTargetRefusal(Tables(records, prepared, heads, events, outbox), cx, p).Some? {
        return Raised(AttemptTargetRefusal(Tables(records, prepared, heads, events, outbox), cx, p).value);
      }
      if heads[id].state != UNKNOWN {
        return Raised(IllegalTransition);
      }
      if heads[id].revision != expected {
        return Raised(CasConflict);
      }
      reply := AppendAttempt(id, Started(cx.attempt, cx.deadline, cx.version, p.id), now, AttemptStarted,
                             StartDetail(cx, p), drawn);
    }

    method FinishAttempt(cx: AttemptContext, p: Provider, outcome: AttemptOutcome, expected: nat,
                         finding: Option<Finding>, error: Option<Text>, at: Time, drawn: OutboxId)
      returns (reply: Reply<Event>)
      modifies this
      ensures Realizes(Ops.FinishAttempt(old(Contents()), cx, p, outcome, expected, finding, error, at, drawn),
                       old(Contents()), reply, Contents())
    {
      var id := cx.action.execId;
      if cx.version != p.version || (outcome == Success) != finding.Some?
         || (finding.Some? && finding.value.kind !in p.kinds) {
        return Raised(InvalidArgument);
      }
      if AttemptTargetRefusal(Tables(records, prepared, heads, events, outbox), cx, p).Some? {
        return Raised(AttemptTargetRefusal(Tables(records, prepared, heads, events, outbox), cx, p).value);
      }
      if heads[id].revision != expected {
        return Raised(CasConflict);
      }
      reply := AppendAttempt(id, Finished(cx.attempt, p.id, outcome, finding, error), at, AttemptFinished,
                             FinishDetail(cx, p, outcome, finding), drawn);
    }

    /** Update the head, its log and the idempotency row together. */
    method AppendTransition(id: ExecId, tr: Transition, auditType: AuditType, d: Detail, drawn: OutboxId)
      returns (reply: Reply<Head>)
      requires id in heads && id in events
      modifies this`records, this`heads, this`events, this`outbox
      ensures Realizes(Ops.AppendTransition(old(Contents()), id, tr, auditType, d, drawn), old(Contents()), reply, Contents())
    {
      var h := heads[id];
      if !LegalTransition(h.state, tr.newState) {
        return Raised(IllegalTransition);
      }
      if id !in records || records[id].state !in {Unknown, ManualReview} {
        return Raised(AuthorityMismatch);
      }
      var failure := AppendEvent(id, TransitionEvent(h, tr), auditType, d, drawn);
      if failure.Some? {
        return Raised(failure.value);
      }
      records := records[id := ResolvedRow(records[id], heads[id])];
      reply := Returned(heads[id]);
    }

    method CompareAndAppendTransition(q: TransitionArgs) returns (reply: Reply<Head>)
      modifies this
      ensures Realizes(Ops.CompareAndAppendTransition(old(Contents()), q), old(Contents()), reply, Contents())
      ensures old(Valid()) ==>
                && (reply.Returned? <==> MayMove(old(Contents()), q))
                && (reply.Returned? ==> Moves(old(Contents()), q, Contents()) && reply.value == heads[q.execId])
    {
      if Valid() {
        TransitionAcceptedIff(Contents(), q);
      }
      if q.execId !in heads || q.execId !in events {
        return Raised(NotFound);
      }
      var h := heads[q.execId];
      if h.state != q.expectedState || h.revision != q.expectedRevision {
        return Raised(CasConflict);
      }
      var refusal := RefuseDecision(h, events[q.execId], q);
      if refusal.Some? {
        return Raised(refusal.value);
      }
      if !q.evidenceValid {
        return Raised(EvidenceRejected);
      }
      reply := AppendTransition(q.execId, TransitionOf(q), AuditTypeOf(q), DetailOf(q), q.outboxId);
    }

    /** Write a synthetic finish for each of the given open starts; on failure the caller rolls back. */
    method CloseAll(id: ExecId, open: seq<Event>, now: Time, draw: nat -> OutboxId) returns (failure: Option<Error>)
      requires id in heads && id in events
      requires forall e | e in open :: e.payload.Started?
      modifies this`heads, this`events, this`outbox
      ensures match Ops.CloseAll(old(Contents()), id, open, now, draw)
              case Done(after, _) => failure.None? && Contents() == after && id in heads && id in events
              case Refused(err) => failure == Some(err)
    {
      for i := 0 to |open|
        invariant id in heads && id in events
        invariant Ops.CloseAll(Contents(), id, open[i..], now, draw) == Ops.CloseAll(old(Contents()), id, open, now, draw)
      {
        assert open[i..][1..] == open[i + 1..];
        var s := open[i].payload;
        var reply := AppendAttempt(id, ExpiryOf(s), now, AttemptRecoveryRecorded, ExpiryDetail(heads[id], s), draw(|open| - i));
        if reply.Raised? {
          return Some(reply.error);
        }
      }
      assert open[|open|..] == [];
      failure := None;
    }

    method Restore(records: map<ExecId, Record>, heads: map<ExecId, Head>, events: map<ExecId, seq<Event>>,
                   outbox: map<OutboxId, Envelope>)
      modifies this`records, this`heads, this`events, this`outbox
      ensures Contents() == Tables(records, prepared, heads, events, outbox)
    {
      this.records, this.heads, this.events, this.outbox := records, heads, events, outbox;
    }

    /** Close the open starts and move the head to review, in one transaction. */
    method Quarantine(id: ExecId, open: seq<Event>, now: Time, evidenceFits: bool, draw: nat -> OutboxId)
      returns (reply: Reply<Option<Head>>)
      requires id in heads && id in events
      requires forall e | e in open :: e.payload.Started?
      modifies this
      ensures match Ops.CloseAll(old(Contents()), id, open, now, draw)
              case Refused(err) => Contents() == old(Contents()) && reply == Raised(err)
              case Done(t, _) =>
                if !evidenceFits then Contents() == old(Contents()) && reply == Raised(EvidenceRejected)
                else
                  && id in t.heads && id in t.events
                  && match Ops.Review(t, id, now, |open|, draw(0))
                     case Refused(err) => Contents() == old(Contents()) && reply == Raised(err)
                     case Done(t', h) => Contents() == t' && reply == Returned(Some(h))
    {
      var savedRecords, savedHeads, savedEvents, savedOutbox := records, heads, events, outbox;
      var failure := CloseAll(id, open, now, draw);
      if failure.Some? || !evidenceFits {
        Restore(savedRecords, savedHeads, savedEvents, savedOutbox);
        return Raised(if failure.Some? then failure.value else EvidenceRejected);
      }
      var tr := RecoveryTransition(now, |open|);
      var moved := AppendTransition(id, tr, RecoveryTransitionRecorded, ReviewDetail(tr), draw(0));
      if moved.Raised? {
        Restore(savedRecords, savedHeads, savedEvents, savedOutbox);
        return Raised(moved.error);
      }
      reply := Returned(Some(moved.value));
    }

    method RecoverUnfinished(id: ExecId, now: Time, evidenceFits: bool, draw: nat -> OutboxId)
      returns (reply: Reply<Option<Head>>)
      requires id in heads && id in events ==> LogOk(events[id])
      modifies this
      ensures Realizes(Ops.RecoverUnfinished(old(Contents()), id, now, evidenceFits, draw), old(Contents()), reply, Contents())
    {
      if id !in heads || id !in events {
        return Raised(NotFound);
      }
      OpenStartsAreStarts(events[id]);
      LogIsPaired(events[id]);
      var found := UnmatchedStarts(events[id]);
      var open := found.value;
      if open == [] {
        return Returned(None);
      }
      if heads[id].state != UNKNOWN {
        return Raised(OpenAttemptOutsideUnknown);
      }
      if exists e | e in open :: e.payload.deadline > now {
        return Returned(Some(heads[id]));
      }
      reply := Quarantine(id, open, now, evidenceFits, draw);
    }

    // -------------------------------------------------------------- delivery marks

    method MarkDelivered(o: OutboxId, now: Time) returns (reply: Reply<()>)
      modifies this`outbox
      ensures Realizes(Ops.MarkDelivered(old(Contents()), o, now), old(Contents()), reply, Contents())
      ensures reply.Returned? <==> o in old(outbox)
      ensures o in old(outbox) ==>
                var e := old(outbox)[o];
                outbox == if e.deliveredAt.Some? then old(outbox) else old(outbox)[o := e.(deliveredAt := Some(now))]
    {
      if o !in outbox {
        return Raised(NotFound);
      }
      if outbox[o].deliveredAt.None? {
        outbox := outbox[o := outbox[o].(deliveredAt := Some(now))];
      }
      reply := Returned(());
    }

    method RecordDeliveryFailure(o: OutboxId) returns (reply: Reply<()>)
      modifies this`outbox
      ensures Realizes(Ops.RecordDeliveryFailure(old(Contents()), o), old(Contents()), reply, Contents())
      ensures reply.Returned? <==> o in old(outbox)
      ensures o in old(outbox) ==>
                var e := old(outbox)[o];
                outbox == if e.deliveredAt.Some? then old(outbox) else old(outbox)[o := e.(attempts := e.attempts + 1)]
    {
      if o !in outbox {
        return Raised(NotFound);
      }
      if outbox[o].deliveredAt.None? {
        outbox := outbox[o := outbox[o].(attempts := outbox[o].attempts + 1)];
      }
      reply := Returned(());
    }
  }
}
