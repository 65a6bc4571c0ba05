/** Exactly when each call of the reconciliation ledger is accepted, and what it then commits. */
module LedgerAnswers {
  import opened Basics
  import opened LedgerTypes
  import opened Operations
  import opened LedgerInvariant
  import opened AttemptDiscipline
  import opened LedgerSteps
  import opened LedgerTheorems
  import opened ReconciliationRuns

  // ---------------------------------------------------------------- open attempts, read off the log

  predicate Finishes(e: Event, a: AttemptId) {
    e.payload.Finished? && e.payload.attempt == a
  }

  predicate IsFinished(es: seq<Event>, a: AttemptId) {
    exists j | 0 <= j < |es| :: Finishes(es[j], a)
  }

  /** The i-th event started an attempt that nothing has finished. */
  predicate IsOpen(es: seq<Event>, i: nat) {
    i < |es| && es[i].payload.Started? && !IsFinished(es, es[i].payload.attempt)
  }

  predicate NothingOpen(es: seq<Event>) {
    forall i: nat | i < |es| :: !IsOpen(es, i)
  }

  lemma OpenStartIsOpen(es: seq<Event>, e: Event) returns (i: nat)
    requires LogOk(es) && e in OpenStarts(es)
    ensures IsOpen(es, i) && es[i] == e
  {
    i := OpenIsSole(es, e);
    forall j | 0 <= j < |es| ensures !Finishes(es[j], e.payload.attempt) {
      assert j != i ==> !Names(es[j], e.payload.attempt);
    }
  }

  lemma IsOpenStart(es: seq<Event>, i: nat)
    requires LogOk(es) && IsOpen(es, i)
    ensures es[i] in OpenStarts(es)
  {
    forall j | 0 <= j < |es| && es[j].payload.Finished? ensures es[j].payload.attempt != es[i].payload.attempt {
      assert !Finishes(es[j], es[i].payload.attempt);
    }
    UnfinishedIsOpen(es, i);
  }

  lemma NothingOpenIff(es: seq<Event>)
    requires LogOk(es)
    ensures OpenStarts(es) == [] <==> NothingOpen(es)
  {
    if OpenStarts(es) != [] {
      var i := OpenStartIsOpen(es, OpenStarts(es)[0]);
    }
    if !NothingOpen(es) {
      var i: nat :| i < |es| && IsOpen(es, i);
      IsOpenStart(es, i);
    }
  }

  /** The provider's own attempt is open. */
  predicate OpenBy(es: seq<Event>, i: nat, a: AttemptId, p: ProviderId) {
    IsOpen(es, i) && es[i].payload.attempt == a && es[i].payload.provider == p
  }

  predicate HasOpenBy(es: seq<Event>, a: AttemptId, p: ProviderId) {
    exists i: nat | i < |es| :: OpenBy(es, i, a, p)
  }

  lemma OpenIsTheSoleStart(es: seq<Event>, i: nat)
    requires LogOk(es) && IsOpen(es, i)
    ensures SoleStart(es, es[i].payload.attempt, i)
  {
    IsOpenStart(es, i);
    var k := OpenIsSole(es, es[i]);
    StartedOnce(es, i, k);
  }

  lemma FinishAllowedIff(es: seq<Event>, p: EventPayload)
    requires LogOk(es) && p.Finished?
    ensures AttemptRefusal(es, p).None? <==> HasOpenBy(es, p.attempt, p.provider)
  {
    if HasOpenBy(es, p.attempt, p.provider) {
      var i: nat :| i < |es| && OpenBy(es, i, p.attempt, p.provider);
      OpenIsTheSoleStart(es, i);
    }
    if SoleStartBy(es, p.attempt, p.provider) {
      var i :| 0 <= i < |es| && SoleStart(es, p.attempt, i) && es[i].payload.provider == p.provider;
      forall j | 0 <= j < |es| ensures !Finishes(es[j], p.attempt) {
        assert j != i ==> !Names(es[j], p.attempt);
      }
      assert OpenBy(es, i, p.attempt, p.provider);
    }
  }

  // ---------------------------------------------------------------- attempts

  /** One event more on one log, and nothing else but the head and the outbox that go with it. */
  predicate OnlyAppends(t: Tables, t': Tables, id: ExecId, e: Event, drawn: OutboxId) {
    && id in t.events && t'.events == t.events[id := t.events[id] + [e]]
    && t'.records == t.records && t'.prepared == t.prepared
    && t'.outbox.Keys == t.outbox.Keys + {drawn}
  }

  predicate Addresses(t: Tables, cx: AttemptContext, p: Provider, expected: nat) {
    var id := cx.action.execId;
    && id in t.heads && id in t.events && t.heads[id].action == cx.action && cx.version == p.version
    && expected == |t.events[id]|
  }

  predicate MayStart(t: Tables, cx: AttemptContext, p: Provider, expected: nat, drawn: OutboxId) {
    && Addresses(t, cx, p, expected) && drawn !in t.outbox
    && t.heads[cx.action.execId].state == UNKNOWN
    && NothingOpen(t.events[cx.action.execId]) && !Mentions(t.events[cx.action.execId], cx.attempt)
  }

  lemma EventOnlyAppends(t: Tables, id: ExecId, e: Event, ty: AuditType, d: Detail, drawn: OutboxId)
    requires id in t.heads && id in t.events
    ensures OnlyAppends(t, WithEvent(t, id, e, ty, d, drawn), id, e, drawn)
  {
  }

  lemma AttemptRefused(t: Tables, id: ExecId, p: EventPayload, at: Time, ty: AuditType, d: Detail, drawn: OutboxId)
    requires id in t.heads && id in t.events && !p.Moved?
    requires || AttemptRefusal(t.events[id], p).Some? || (p.Started? && t.heads[id].state != UNKNOWN)
             || Enqueue(t.outbox, Advance(t.heads[id], AttemptEvent(t.heads[id], p, at)), ty, d, drawn).Refused?
    ensures AppendAttempt(t, id, p, at, ty, d, drawn).Refused?
  {
  }

  predicate AttemptFits(t: Tables, id: ExecId, p: EventPayload, drawn: OutboxId)
    requires id in t.heads && id in t.events && !p.Moved?
  {
    AttemptRefusal(t.events[id], p).None? && (p.Started? ==> t.heads[id].state == UNKNOWN) && drawn !in t.outbox
  }

  lemma AttemptAcceptedIff(t: Tables, id: ExecId, p: EventPayload, at: Time, ty: AuditType, d: Detail, drawn: OutboxId)
    requires Inv(t) && id in t.heads && !p.Moved?
    ensures var r := AppendAttempt(t, id, p, at, ty, d, drawn);
            var h := t.heads[id];
            && h.revision == |t.events[id]|
            && (r.Done? <==> AttemptFits(t, id, p, drawn))
            && (r.Done? ==> r.value == Event(h.revision + 1, h.state, h.state, at, p) && OnlyAppends(t, r.state, id, r.value, drawn))
  {
    var e := AttemptEvent(t.heads[id], p, at);
    assert t.heads[id].revision == |t.events[id]| by {
      ReplayShape(t.heads[id].action, t.heads[id].updatedAt, t.events[id]);
    }
    if AttemptFits(t, id, p, drawn) {
      AttemptCommits(t, id, p, at, ty, d, drawn);
      EventOnlyAppends(t, id, e, ty, d, drawn);
    } else {
      EnqueueAppends(t, id, e, ty, d, drawn);
      AttemptRefused(t, id, p, at, ty, d, drawn);
    }
  }

  lemma StartUnfolds(t: Tables, cx: AttemptContext, p: Provider, expected: nat, now: Time, drawn: OutboxId)
    requires forall id | id in t.heads :: id in t.events && t.heads[id].revision == |t.events[id]|
    ensures var id := cx.action.execId;
            var r := StartAttempt(t, cx, p, expected, now, drawn);
            if Addresses(t, cx, p, expected) && t.heads[id].state == UNKNOWN
            then r == AppendAttempt(t, id, Started(cx.attempt, cx.deadline, p.version, p.id), now, AttemptStarted,
                                    StartDetail(cx, p), drawn)
            else r.Refused?
  {
  }

  lemma RevisionsCount(t: Tables)
    requires LogsOk(t)
    ensures forall id | id in t.heads :: id in t.events && t.heads[id].revision == |t.events[id]|
  {
    forall id | id in t.heads ensures id in t.events && t.heads[id].revision == |t.events[id]| {
      ReplayShape(t.heads[id].action, t.heads[id].updatedAt, t.events[id]);
    }
  }

  /** A start is accepted exactly at the current revision of an unknown head, when nothing is open
      and the attempt was never named. */
  lemma StartAcceptedIff(t: Tables, cx: AttemptContext, p: Provider, expected: nat, now: Time, drawn: OutboxId)
    requires Inv(t)
    ensures var r := StartAttempt(t, cx, p, expected, now, drawn);
            && (r.Done? <==> MayStart(t, cx, p, expected, drawn))
            && (r.Done? ==>
                  && r.value == Event(expected + 1, UNKNOWN, UNKNOWN, now, Started(cx.attempt, cx.deadline, p.version, p.id))
                  && OnlyAppends(t, r.state, cx.action.execId, r.value, drawn))
  {
    var id := cx.action.execId;
    RevisionsCount(t);
    StartUnfolds(t, cx, p, expected, now, drawn);
    if Addresses(t, cx, p, expected) && t.heads[id].state == UNKNOWN {
      assert LogOk(t.events[id]) by { assert HeadOk(t.heads[id], t.events[id]); }
      NothingOpenIff(t.events[id]);
      AttemptAcceptedIff(t, id, Started(cx.attempt, cx.deadline, p.version, p.id), now, AttemptStarted, StartDetail(cx, p), drawn);
    }
  }

  predicate MayFinish(t: Tables, cx: AttemptContext, p: Provider, outcome: AttemptOutcome, expected: nat,
                      finding: Option<Finding>, drawn: OutboxId) {
    && Addresses(t, cx, p, expected) && drawn !in t.outbox
    && (outcome == Success <==> finding.Some?) && (finding.Some? ==> finding.value.kind in p.kinds)
    && HasOpenBy(t.events[cx.action.execId], cx.attempt, p.id)
  }

  lemma FinishUnfolds(t: Tables, cx: AttemptContext, p: Provider, outcome: AttemptOutcome, expected: nat,
                      finding: Option<Finding>, error: Option<Text>, at: Time, drawn: OutboxId)
    requires forall id | id in t.heads :: id in t.events && t.heads[id].revision == |t.events[id]|
    ensures var r := FinishAttempt(t, cx, p, outcome, expected, finding, error, at, drawn);
            if Addresses(t, cx, p, expected) && (outcome == Success <==> finding.Some?)
               && (finding.Some? ==> finding.value.kind in p.kinds)
            then r == AppendAttempt(t, cx.action.execId, Finished(cx.attempt, p.id, outcome, finding, error), at, AttemptFinished,
                                    FinishDetail(cx, p, outcome, finding), drawn)
            else r.Refused?
  {
  }

  /** A finish is accepted exactly at the current revision, from the provider whose attempt is open,
      with a finding of its own kinds exactly when it succeeded. */
  lemma FinishAcceptedIff(t: Tables, cx: AttemptContext, p: Provider, outcome: AttemptOutcome, expected: nat,
                          finding: Option<Finding>, error: Option<Text>, at: Time, drawn: OutboxId)
    requires Inv(t)
    ensures var r := FinishAttempt(t, cx, p, outcome, expected, finding, error, at, drawn);
            && (r.Done? <==> MayFinish(t, cx, p, outcome, expected, finding, drawn))
            && (r.Done? ==>
                  var s := t.heads[cx.action.execId].state;
                  && r.value == Event(expected + 1, s, s, at, Finished(cx.attempt, p.id, outcome, finding, error))
                  && OnlyAppends(t, r.state, cx.action.execId, r.value, drawn))
  {
    var id, pay := cx.action.execId, Finished(cx.attempt, p.id, outcome, finding, error);
    RevisionsCount(t);
    FinishUnfolds(t, cx, p, outcome, expected, finding, error, at, drawn);
    if Addresses(t, cx, p, expected) {
      assert LogOk(t.events[id]) by { assert HeadOk(t.heads[id], t.events[id]); }
      FinishAllowedIff(t.events[id], pay);
      AttemptAcceptedIff(t, id, pay, at, AttemptFinished, FinishDetail(cx, p, outcome, finding), drawn);
    }
  }

  // ---------------------------------------------------------------- transitions

  /** A finding moves an unknown head when its attempt persisted it; a resolution moves a head in
      review, by its own id and revision. */
  predicate MayMove(t: Tables, q: TransitionArgs) {
    && q.execId in t.heads && q.execId in t.events && q.outboxId !in t.outbox && q.evidenceValid
    && q.expectedState == t.heads[q.execId].state && q.expectedRevision == |t.events[q.execId]|
    && match q.decision
       case ByFinding(f) =>
         && q.expectedState == UNKNOWN && q.provider.Some? && q.attempt.Some? && f.kind in q.provider.value.kinds
         && HasConfirmingFinish(t.events[q.execId], q.attempt.value, q.provider.value.id, f)
       case ByResolution(m) =>
         && q.expectedState == MANUAL_REVIEW && q.provider.None? && q.attempt.None?
         && m.execId == q.execId && m.expectedRevision == q.expectedRevision
  }

  /** The transition says what the decision said, on whose authority. */
  predicate Restates(tr: Transition, q: TransitionArgs) {
    match q.decision
    case ByFinding(f) =>
      && tr.source == FromProvider && FindingOf(tr) == f
      && q.provider.Some? && tr.provider == Some(q.provider.value.id) && tr.attempt == q.attempt
      && tr.operator.None? && tr.reason.None?
    case ByResolution(m) =>
      && tr.source == FromOperator && tr.operator == Some(m.operator) && tr.reason == Some(m.reason)
      && FindingOf(tr) == FindingFields(m.newState, m.kind, m.evidence, m.resolvedAt, m.retrySafe, m.result)
      && tr.provider.None? && tr.attempt.None?
  }

  /** The tables move by one transition, which restates the decision. */
  predicate Moves(t: Tables, q: TransitionArgs, t': Tables)
    requires q.execId in t.heads && q.execId in t.events
  {
    var es := t.events[q.execId];
    && q.execId in t'.events && |t'.events[q.execId]| == |es| + 1
    && t'.events == t.events[q.execId := es + [t'.events[q.execId][|es|]]]
    && t'.prepared == t.prepared && t'.outbox.Keys == t.outbox.Keys + {q.outboxId}
    && var e := t'.events[q.execId][|es|];
    && e.payload.Moved? && Restates(e.payload.transition, q)
    && e.revision == |es| + 1 && e.before == q.expectedState
    && e.after == e.payload.transition.newState && e.at == e.payload.transition.at
    && q.execId in t'.heads && q.execId in t'.records
    && HeadShows(Some(e.payload.transition), t'.heads[q.execId]) && RowShows(Some(e.payload.transition), t'.records[q.execId])
  }

  lemma DecisionPassesIff(t: Tables, q: TransitionArgs)
    requires q.execId in t.heads && q.execId in t.events && t.heads[q.execId].revision == |t.events[q.execId]|
    ensures MayMove(t, q) <==>
              && q.expectedState == t.heads[q.execId].state && q.expectedRevision == t.heads[q.execId].revision
              && DecisionRefusal(t.heads[q.execId], t.events[q.execId], q).None? && q.evidenceValid
              && q.outboxId !in t.outbox && LegalTransition(t.heads[q.execId].state, TransitionOf(q).newState)
  {
  }

  lemma MovedAsDecided(t: Tables, q: TransitionArgs, t': Tables)
    requires MayMove(t, q) && t.heads[q.execId].revision == |t.events[q.execId]|
    requires var e := TransitionEvent(t.heads[q.execId], TransitionOf(q));
             && q.execId in t.records
             && t' == WithEvent(t, q.execId, e, AuditTypeOf(q), DetailOf(q), q.outboxId)
                        .(records := t.records[q.execId := ResolvedRow(t.records[q.execId], Advance(t.heads[q.execId], e))])
    ensures Moves(t, q, t')
  {
  }

  lemma TransitionUnfolds(t: Tables, q: TransitionArgs)
    requires q.execId in t.heads && q.execId in t.events && t.heads[q.execId].revision == |t.events[q.execId]| && MayMove(t, q)
    ensures LegalTransition(t.heads[q.execId].state, TransitionOf(q).newState)
    ensures CompareAndAppendTransition(t, q) ==
            AppendTransition(t, q.execId, TransitionOf(q), AuditTypeOf(q), DetailOf(q), q.outboxId)
  {
  }

  /** A transition is accepted exactly for a persisted finding of an unknown head, or for the
      resolution of a head in review, at the current state and revision. */
  lemma TransitionAcceptedIff(t: Tables, q: TransitionArgs)
    requires Inv(t)
    ensures var r := CompareAndAppendTransition(t, q);
            && (r.Done? <==> MayMove(t, q))
            && (r.Done? ==> Moves(t, q, r.state))
  {
    RevisionsCount(t);
    if MayMove(t, q) {
      TransitionUnfolds(t, q);
      AppendTransitionAppends(t, q.execId, TransitionOf(q), AuditTypeOf(q), DetailOf(q), q.outboxId);
      var r := CompareAndAppendTransition(t, q);
      MovedAsDecided(t, q, r.state);
    } else if CompareAndAppendTransition(t, q).Done? {
      TransitionShape(t, q);
      AppendTransitionAppends(t, q.execId, TransitionOf(q), AuditTypeOf(q), DetailOf(q), q.outboxId);
      DecisionPassesIff(t, q);
    }
  }

  // ---------------------------------------------------------------- opening heads

  /** The claim presents its own action. */
  predicate Presents(c: Claim, a: Action) {
    && c.owner && c.token.Some?
    && c.execId == a.execId && c.fingerprint == a.digest && NamespaceDigest(c.namespace) == a.namespace
  }

  /** An action is prepared by the owner while it holds its row, and never replaced by another. */
  lemma PrepareAcceptedIff(t: Tables, c: Claim, a: Action)
    ensures var r := PrepareAction(t, c, a);
            && (r.Done? <==> Presents(c, a) && if c.execId in t.prepared then t.prepared[c.execId] == a else Holds(t.records, c))
            && (r.Done? ==> r.state == t.(prepared := t.prepared[c.execId := a]))
  {
    assert c.execId in t.prepared && t.prepared[c.execId] == a ==> t.prepared[c.execId := a] == t.prepared;
  }

  predicate MayRecordUnknown(t: Tables, c: Claim, a: Action, drawn: OutboxId) {
    && Presents(c, a) && Holds(t.records, c) && drawn !in t.outbox
    && (c.execId in t.prepared ==> SameIdentity(t.prepared[c.execId], a))
  }

  function Described(t: Tables, c: Claim, a: Action): Action {
    if c.execId in t.prepared then t.prepared[c.execId] else a
  }

  function Unsettled(t: Tables, c: Claim, error: Text, now: Time): Tables
    requires c.execId in t.records
  {
    t.(records := t.records[c.execId := Settle(t.records[c.execId], Unknown, None, Some(error), now)])
  }

  lemma RecordUnknownUnfolds(t: Tables, c: Claim, a: Action, error: Text, now: Time, drawn: OutboxId)
    requires Holds(t.records, c) ==> c.execId !in t.heads
    ensures var r := RecordUnknown(t, c, a, error, now, drawn);
            if Presents(c, a) && Holds(t.records, c) && (c.execId in t.prepared ==> SameIdentity(t.prepared[c.execId], a))
            then r == OpenHead(Unsettled(t, c, error, now), Described(t, c, a), now, drawn)
            else r.Refused?
  {
  }

  lemma OpeningUnsettled(t: Tables, c: Claim, a: Action, error: Text, now: Time, drawn: OutboxId)
    requires Inv(t) && Holds(t.records, c) && a.execId == c.execId
    ensures var t1 := Unsettled(t, c, error, now);
            var r := OpenHead(t1, a, now, drawn);
            if drawn in t.outbox then r.Refused? else r.Done? && Opened(t1, r.state, a, now, drawn)
  {
    PendingHasNoHead(t, c.execId);
    assert RowChecks(t.records[c.execId]);
    PendingUpdateKeeps(t, c.execId, Settle(t.records[c.execId], Unknown, None, Some(error), now));
    OpenHeadOpens(Unsettled(t, c, error, now), a, now, drawn);
  }

  /** An unknown outcome is recorded by the owner while it holds its row; the head carries the
      prepared action where there is one. */
  lemma RecordUnknownAcceptedIff(t: Tables, c: Claim, a: Action, error: Text, now: Time, drawn: OutboxId)
    requires Inv(t)
    ensures var r := RecordUnknown(t, c, a, error, now, drawn);
            && (r.Done? <==> MayRecordUnknown(t, c, a, drawn))
            && (r.Done? ==> Opened(t.(records := r.state.records), r.state, Described(t, c, a), now, drawn))
  {
    assert Holds(t.records, c) ==> c.execId !in t.heads by {
      if Holds(t.records, c) {
        PendingHasNoHead(t, c.execId);
      }
    }
    RecordUnknownUnfolds(t, c, a, error, now, drawn);
    if Presents(c, a) && Holds(t.records, c) && (c.execId in t.prepared ==> SameIdentity(t.prepared[c.execId], a)) {
      OpeningUnsettled(t, c, Described(t, c, a), error, now, drawn);
    }
  }

  /** A head is created for exactly the retained unknown row that the action is bound to. */
  lemma CreateUnknownAcceptedIff(t: Tables, a: Action, drawn: OutboxId)
    requires Inv(t)
    ensures var r := CreateUnknown(t, a, drawn);
            && (r.Done? <==>
                  && a.execId in t.records && BoundTo(a, a.execId, t.records[a.execId]) && t.records[a.execId].state == Unknown
                  && a.execId !in t.heads && drawn !in t.outbox)
            && (r.Done? ==> Opened(t, r.state, a, a.attemptedAt, drawn) && r.value == r.state.heads[a.execId])
  {
    if a.execId !in t.heads {
      OpenHeadOpens(t, a, a.attemptedAt, drawn);
    }
  }

  // ---------------------------------------------------------------- recovery

  /** Recovery reports that nothing is open, leaves an attempt within its deadline alone, refuses an
      open attempt outside UNKNOWN, and otherwise closes the overdue attempt and asks for review. */
  lemma RecoveryAnswers(t: Tables, id: ExecId, now: Time, fits: bool, draw: nat -> OutboxId)
    requires Inv(t) && id in t.heads
    ensures var r := RecoverUnfinished(t, id, now, fits, draw);
            var es := t.events[id];
            if NothingOpen(es) then r == Done(t, None)
            else if t.heads[id].state != UNKNOWN then r == Refused(OpenAttemptOutsideUnknown)
            else if exists i: nat :: IsOpen(es, i) && es[i].payload.deadline > now then r == Done(t, Some(t.heads[id]))
            else
              && (r.Done? ==> fits && Quarantined(t, r.state, id, now) && r.value == Some(r.state.heads[id]))
              && (fits && draw(0) !in t.outbox && draw(1) !in t.outbox && draw(0) != draw(1) ==> r.Done?)
  {
    var es := t.events[id];
    NothingOpenIff(es);
    OpenStartsAreStarts(es);
    if i: nat :| IsOpen(es, i) && es[i].payload.deadline > now {
      IsOpenStart(es, i);
    } else if OpenStarts(es) != [] && t.heads[id].state == UNKNOWN {
      forall e | e in OpenStarts(es) ensures e.payload.deadline <= now {
        var i := OpenStartIsOpen(es, e);
      }
      if RecoverUnfinished(t, id, now, fits, draw).Done? {
        RecoverKeeps(t, id, now, fits, draw);
      }
      if fits && draw(0) !in t.outbox && draw(1) !in t.outbox && draw(0) != draw(1) {
        RecoveryQuarantines(t, id, now, draw);
      }
    }
  }
}
