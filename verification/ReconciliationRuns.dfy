/** Runs in which provider transitions follow the runtime's rule: a runtime passes the revision
    that its own finish returned. */
module ReconciliationRuns {
  import opened Basics
  import opened LedgerTypes
  import opened Operations
  import opened LedgerInvariant
  import opened AttemptDiscipline
  import opened LedgerSteps
  import opened Runs
  import opened Ownership

  /** The expected revision is that of the finish of the attempt named in the call. */
  predicate AtOwnFinish(t: Tables, q: TransitionArgs) {
    q.decision.ByFinding? && q.execId in t.events ==>
      0 < q.expectedRevision <= |t.events[q.execId]|
      && ClosesFor(t.events[q.execId][q.expectedRevision - 1], q.attempt)
  }

  predicate FollowsRule(t: Tables, s: Step) {
    s.TransitionCall? ==> AtOwnFinish(t, s.tq)
  }

  ghost predicate RuleRun(w: World, steps: seq<Step>)
    decreases |steps|
  {
    steps == [] || (FollowsRule(w.tables, steps[0]) && RuleRun(Next(w, steps[0]), steps[1..]))
  }

  predicate LogsFollowRule(t: Tables) {
    forall id | id in t.events :: OwnFinish(t.events[id])
  }

  // ---------------------------------------------------------------- one step

  lemma OwnFinishExtends(es: seq<Event>, e: Event)
    requires OwnFinish(es)
    requires e.payload.Moved? && e.payload.transition.source == FromProvider ==>
               es != [] && ClosesFor(es[|es| - 1], e.payload.transition.attempt)
    ensures OwnFinish(es + [e])
  {
    forall k | 0 <= k < |es + [e]| ensures OwnFinishAt(es + [e], k) {
      assert k < |es| ==> OwnFinishAt(es, k);
    }
  }

  /** Calls that append to no existing log. */
  predicate LeavesLogs(s: Step) {
    !(s.StartCall? || s.FinishCall? || s.RecoverCall? || s.TransitionCall?)
  }

  lemma QuietCall(t: Tables, s: Step, id: ExecId)
    requires LinksOk(t) && LeavesLogs(s) && id in Apply(t, s).events
    ensures Apply(t, s).events[id] == if id in t.events then t.events[id] else []
  {
    if s.AcquireCall? || s.RecordUnknownCall? || s.CreateUnknownCall? {
      OpeningCall(t, s, id);
    }
  }

  lemma OpeningCall(t: Tables, s: Step, id: ExecId)
    requires LinksOk(t) && id in Apply(t, s).events
    requires s.AcquireCall? || s.RecordUnknownCall? || s.CreateUnknownCall?
    ensures Apply(t, s).events[id] == if id in t.events then t.events[id] else []
  {
    if s.AcquireCall? {
      AcquireOpens(t, s.q, id);
    }
  }

  lemma AcquireOpens(t: Tables, q: AcquireArgs, id: ExecId)
    requires LinksOk(t) && id in Apply(t, AcquireCall(q)).events
    ensures Apply(t, AcquireCall(q)).events[id] == if id in t.events then t.events[id] else []
  {
    if Acquire(t, q).Done? {
      var how := AcquireShape(t, q);
      if how.Expired? {
        ExpiryOpens(t, how.id, q);
      }
    }
  }

  lemma ExpiryOpens(t: Tables, x: ExecId, q: AcquireArgs)
    requires LinksOk(t) && x in t.records && ExpireOwner(t, x, q).Done?
    ensures var events := ExpireOwner(t, x, q).state.events;
            events == t.events || (x !in t.events && events == t.events[x := []])
  {
  }

  lemma AttemptAppendsOneEvent(t: Tables, id: ExecId, p: EventPayload, at: Time, ty: AuditType, d: Detail, drawn: OutboxId)
    requires id in t.heads && id in t.events && !p.Moved? && AppendAttempt(t, id, p, at, ty, d, drawn).Done?
    ensures AppendAttempt(t, id, p, at, ty, d, drawn).state.events ==
            t.events[id := t.events[id] + [AttemptEvent(t.heads[id], p, at)]]
  {
  }

  /** A log that grows by anything but a provider's transition goes on following the rule. */
  lemma OneLogGrows(t: Tables, t': Tables, id: ExecId, e: Event)
    requires LogsFollowRule(t) && id in t.events && t'.events == t.events[id := t.events[id] + [e]]
    requires e.payload.Moved? && e.payload.transition.source == FromProvider ==>
               t.events[id] != [] && ClosesFor(t.events[id][|t.events[id]| - 1], e.payload.transition.attempt)
    ensures LogsFollowRule(t')
  {
    OwnFinishExtends(t.events[id], e);
  }

  lemma StartFollows(t: Tables, s: Step)
    requires LogsFollowRule(t) && s.StartCall?
    ensures LogsFollowRule(Apply(t, s))
  {
    var r := StartAttempt(t, s.cx, s.provider, s.expected, s.now, s.outboxId);
    if r.Done? {
      var id := s.cx.action.execId;
      var pay := Started(s.cx.attempt, s.cx.deadline, s.cx.version, s.provider.id);
      var d := StartDetail(s.cx, s.provider);
      AttemptAppendsOneEvent(t, id, pay, s.now, AttemptStarted, d, s.outboxId);
      OneLogGrows(t, r.state, id, AttemptEvent(t.heads[id], pay, s.now));
    }
  }

  lemma FinishFollows(t: Tables, s: Step)
    requires LogsFollowRule(t) && s.FinishCall?
    ensures LogsFollowRule(Apply(t, s))
  {
    var r := FinishAttempt(t, s.cx, s.provider, s.outcome, s.expected, s.finding, s.note, s.now, s.outboxId);
    if r.Done? {
      var id := s.cx.action.execId;
      var pay := Finished(s.cx.attempt, s.provider.id, s.outcome, s.finding, s.note);
      var d := Detail(Some(s.provider), Some(s.cx.attempt), Some(s.outcome),
                      if s.finding.Some? then Some(s.finding.value.kind) else None,
                      if s.finding.Some? then Some(EvidenceDigest(s.finding.value.evidence)) else None, None);
      AttemptAppendsOneEvent(t, id, pay, s.now, AttemptFinished, d, s.outboxId);
      OneLogGrows(t, r.state, id, AttemptEvent(t.heads[id], pay, s.now));
    }
  }

  lemma TransitionAppendsOneEvent(t: Tables, q: TransitionArgs)
    requires CompareAndAppendTransition(t, q).Done?
    ensures q.execId in t.heads && q.execId in t.events && t.heads[q.execId].revision == q.expectedRevision
    ensures q.decision.ByFinding? ==> q.provider.Some? && q.attempt.Some?
    ensures CompareAndAppendTransition(t, q).state.events ==
            t.events[q.execId := t.events[q.execId] + [TransitionEvent(t.heads[q.execId], TransitionOf(q))]]
  {
  }

  lemma TransitionFollows(t: Tables, q: TransitionArgs)
    requires LogsOk(t) && LogsFollowRule(t) && AtOwnFinish(t, q)
    ensures LogsFollowRule(Apply(t, TransitionCall(q)))
  {
    if CompareAndAppendTransition(t, q).Done? {
      TransitionAppendsOneEvent(t, q);
      var id := q.execId;
      assert t.heads[id].revision == |t.events[id]| by {
        ReplayShape(t.heads[id].action, t.heads[id].updatedAt, t.events[id]);
      }
      OneLogGrows(t, CompareAndAppendTransition(t, q).state, id, TransitionEvent(t.heads[id], TransitionOf(q)));
    }
  }

  lemma OwnFinishSurvivesQuarantine(t: Tables, t': Tables, id: ExecId, now: Time)
    requires Quarantined(t, t', id, now) && OwnFinish(t.events[id])
    ensures OwnFinish(t'.events[id])
  {
    var es, es' := t.events[id], t'.events[id];
    OwnFinishExtends(es, es'[|es|]);
    OwnFinishExtends(es + [es'[|es|]], es'[|es| + 1]);
    assert es' == es + [es'[|es|]] + [es'[|es| + 1]];
  }

  lemma RecoverFollows(t: Tables, s: Step)
    requires Inv(t) && LogsFollowRule(t) && s.RecoverCall?
    ensures LogsFollowRule(Apply(t, s))
  {
    var draw := Draws(s.outboxId, s.reviewId);
    if RecoverUnfinished(t, s.execId, s.now, s.evidenceFits, draw).Done? {
      var t' := RecoverUnfinished(t, s.execId, s.now, s.evidenceFits, draw).state;
      assert t' == t || Quarantined(t, t', s.execId, s.now) by {
        RecoverKeeps(t, s.execId, s.now, s.evidenceFits, draw);
      }
      if t' != t {
        RecoverTouchesOneLog(t, s.execId, s.now, s.evidenceFits, draw);
        QuarantineFollows(t, t', s.execId, s.now);
      }
    }
  }

  lemma QuarantineFollows(t: Tables, t': Tables, id: ExecId, now: Time)
    requires LogsFollowRule(t) && Quarantined(t, t', id, now)
    requires t'.events.Keys == t.events.Keys && forall j | j in t.events && j != id :: t'.events[j] == t.events[j]
    ensures LogsFollowRule(t')
  {
    OwnFinishSurvivesQuarantine(t, t', id, now);
  }

  lemma RecoverTouchesOneLog(t: Tables, id: ExecId, now: Time, fits: bool, draw: nat -> OutboxId)
    requires RecoverUnfinished(t, id, now, fits, draw).Done?
    ensures var t' := RecoverUnfinished(t, id, now, fits, draw).state;
            t'.events.Keys == t.events.Keys && forall j | j in t.events && j != id :: t'.events[j] == t.events[j]
  {
    var closed := RecoverUnfolds(t, id, now, fits, draw);
    if closed {
      CloseAllTouchesOneLog(t, id, OpenStarts(t.events[id]), now, draw);
    }
  }

  lemma CloseAllTouchesOneLog(t: Tables, id: ExecId, open: seq<Event>, now: Time, draw: nat -> OutboxId)
    requires id in t.heads && id in t.events && (forall e | e in open :: e.payload.Started?)
    requires CloseAll(t, id, open, now, draw).Done?
    ensures var t' := CloseAll(t, id, open, now, draw).state;
            t'.events.Keys == t.events.Keys && forall j | j in t.events && j != id :: t'.events[j] == t.events[j]
    decreases |open|
  {
    if open != [] {
      var s := open[0].payload;
      var r := AppendAttempt(t, id, ExpiryOf(s), now, AttemptRecoveryRecorded, ExpiryDetail(t.heads[id], s), draw(|open|));
      CloseAllTouchesOneLog(r.state, id, open[1..], now, draw);
    }
  }

  lemma StepFollows(t: Tables, s: Step)
    requires Inv(t) && LogsFollowRule(t) && FollowsRule(t, s)
    ensures LogsFollowRule(Apply(t, s))
  {
    if s.StartCall? {
      StartFollows(t, s);
    } else if s.FinishCall? {
      FinishFollows(t, s);
    } else if s.RecoverCall? {
      RecoverFollows(t, s);
    } else if s.TransitionCall? {
      TransitionFollows(t, s.tq);
    } else {
      forall id | id in Apply(t, s).events ensures OwnFinish(Apply(t, s).events[id]) {
        QuietCall(t, s, id);
      }
    }
  }

  // ---------------------------------------------------------------- whole runs

  lemma RuleRunKeeps(w: World, steps: seq<Step>)
    requires WorldOk(w) && LogsFollowRule(w.tables) && FreshRun(w, steps) && RuleRun(w, steps)
    ensures WorldOk(RunFrom(w, steps)) && LogsFollowRule(RunFrom(w, steps).tables)
    decreases |steps|
  {
    if steps != [] {
      NextKeeps(w, steps[0]);
      StepFollows(w.tables, steps[0]);
      RuleRunKeeps(Next(w, steps[0]), steps[1..]);
    }
  }

  /** Under the rule a head outside UNKNOWN has no open attempt, so recovery never meets one. */
  lemma NoOpenAttemptOutsideUnknown(w: World, steps: seq<Step>, id: ExecId)
    requires IsStart(w) && FreshRun(w, steps) && RuleRun(w, steps) && id in RunFrom(w, steps).tables.heads
    ensures var t := RunFrom(w, steps).tables;
            id in t.events && (t.heads[id].state != UNKNOWN ==> OpenStarts(t.events[id]) == [])
  {
    StartIsOk(w);
    RuleRunKeeps(w, steps);
    var t := RunFrom(w, steps).tables;
    ReplayShape(t.heads[id].action, t.heads[id].updatedAt, t.events[id]);
    if t.heads[id].state != UNKNOWN {
      NothingOpenOutsideUnknown(t.events[id]);
    }
  }

  lemma MovedPastStart(h: Head, es: seq<Event>, started: nat)
    requires HeadOk(h, es) && OwnFinish(es)
    requires 0 < started <= |es| && es[started - 1].payload.Started?
    requires h.state != UNKNOWN || h.revision > started
    ensures started < |es| && es[started].payload.Finished?
    ensures es[started].payload.attempt == es[started - 1].payload.attempt
  {
    ReplayShape(h.action, h.updatedAt, es);
    AppendableAt(es, started - 1);
    StartThenOwnFinish(es, started - 1);
  }

  /** A finalizer that gives up because the head has moved past its start leaves its attempt closed:
      the very next event is the attempt's own finish. */
  lemma AbandonedFinalizerIsClosed(w: World, steps: seq<Step>, id: ExecId, started: nat)
    requires IsStart(w) && FreshRun(w, steps) && RuleRun(w, steps) && id in RunFrom(w, steps).tables.heads
    requires var t := RunFrom(w, steps).tables;
             && id in t.events
             && 0 < started <= |t.events[id]| && t.events[id][started - 1].payload.Started?
             && (t.heads[id].state != UNKNOWN || t.heads[id].revision > started)
    ensures var es := RunFrom(w, steps).tables.events[id];
            && started < |es| && es[started].payload.Finished?
            && es[started].payload.attempt == es[started - 1].payload.attempt
  {
    StartIsOk(w);
    RuleRunKeeps(w, steps);
    var t := RunFrom(w, steps).tables;
    MovedPastStart(t.heads[id], t.events[id], started);
  }

  // ---------------------------------------------------------------- what the ledger itself accepts

  lemma AttemptCommits(t: Tables, id: ExecId, p: EventPayload, at: Time, ty: AuditType, d: Detail, drawn: OutboxId)
    requires Inv(t) && id in t.heads && !p.Moved? && AttemptRefusal(t.events[id], p).None?
    requires p.Started? ==> t.heads[id].state == UNKNOWN
    requires drawn !in t.outbox
    ensures AppendAttempt(t, id, p, at, ty, d, drawn) ==
            Done(WithEvent(t, id, AttemptEvent(t.heads[id], p, at), ty, d, drawn), AttemptEvent(t.heads[id], p, at))
  {
    ReplayShape(t.heads[id].action, t.heads[id].updatedAt, t.events[id]);
    EnqueueAppends(t, id, AttemptEvent(t.heads[id], p, at), ty, d, drawn);
  }

  /** The ledger itself accepts a persisted finding at whatever revision is current. */
  lemma LedgerAcceptsAtAnyRevision(t: Tables, q: TransitionArgs)
    requires Inv(t) && q.execId in t.heads && t.heads[q.execId].state == UNKNOWN
    requires q.expectedState == UNKNOWN && q.expectedRevision == t.heads[q.execId].revision
    requires q.decision.ByFinding? && q.provider.Some? && q.attempt.Some? && q.evidenceValid
    requires q.decision.finding.kind in q.provider.value.kinds
    requires HasConfirmingFinish(t.events[q.execId], q.attempt.value, q.provider.value.id, q.decision.finding)
    requires q.outboxId !in t.outbox
    ensures CompareAndAppendTransition(t, q).Done?
  {
    assert AppendTransition(t, q.execId, TransitionOf(q), AuditTypeOf(q), DetailOf(q), q.outboxId).Done? by {
      AppendTransitionAppends(t, q.execId, TransitionOf(q), AuditTypeOf(q), DetailOf(q), q.outboxId);
    }
    FindingPasses(t, q);
  }

  /** All that is left to a finding at the current revision is the append. */
  lemma FindingPasses(t: Tables, q: TransitionArgs)
    requires q.execId in t.heads && q.execId in t.events && t.heads[q.execId].state == UNKNOWN
    requires q.expectedState == UNKNOWN && q.expectedRevision == t.heads[q.execId].revision
    requires q.decision.ByFinding? && q.provider.Some? && q.attempt.Some? && q.evidenceValid
    requires q.decision.finding.kind in q.provider.value.kinds
    requires HasConfirmingFinish(t.events[q.execId], q.attempt.value, q.provider.value.id, q.decision.finding)
    ensures CompareAndAppendTransition(t, q) ==
              AppendTransition(t, q.execId, TransitionOf(q), AuditTypeOf(q), DetailOf(q), q.outboxId)
  {
  }

  // ---------------------------------------------------------------- recovery makes progress

  /** An expired open attempt can always be closed. */
  lemma ExpiredAttemptCloses(t: Tables, id: ExecId, now: Time, draw: nat -> OutboxId)
    requires Inv(t) && id in t.heads && |OpenStarts(t.events[id])| == 1
    requires forall e | e in OpenStarts(t.events[id]) :: e.payload.Started?
    requires draw(1) !in t.outbox
    ensures CloseAll(t, id, OpenStarts(t.events[id]), now, draw).Done?
    ensures CloseAll(t, id, OpenStarts(t.events[id]), now, draw).state.outbox.Keys == t.outbox.Keys + {draw(1)}
  {
    var e := OpenStarts(t.events[id])[0];
    ExpiryCommits(t, id, e, now, draw(1));
    CloseOne(t, id, e, now, draw);
    assert OpenStarts(t.events[id]) == [e];
  }

  lemma ExpiryCommits(t: Tables, id: ExecId, e: Event, now: Time, drawn: OutboxId)
    requires Inv(t) && id in t.heads && e in OpenStarts(t.events[id]) && e.payload.Started? && drawn !in t.outbox
    ensures id in t.events
    ensures var p := ExpiryOf(e.payload);
            var d := ExpiryDetail(t.heads[id], e.payload);
            AppendAttempt(t, id, p, now, AttemptRecoveryRecorded, d, drawn) ==
              Done(WithEvent(t, id, AttemptEvent(t.heads[id], p, now), AttemptRecoveryRecorded, d, drawn),
                   AttemptEvent(t.heads[id], p, now))
  {
    var p := ExpiryOf(e.payload);
    FinishIsAllowed(t.events[id], e, p);
    AttemptCommits(t, id, p, now, AttemptRecoveryRecorded, ExpiryDetail(t.heads[id], e.payload), drawn);
  }

  lemma FinishIsAllowed(es: seq<Event>, e: Event, p: EventPayload)
    requires LogOk(es) && e in OpenStarts(es) && e.payload.Started? && p == ExpiryOf(e.payload)
    ensures AttemptRefusal(es, p).None?
  {
    var i := OpenIsSole(es, e);
  }

  lemma CloseOne(t: Tables, id: ExecId, e: Event, now: Time, draw: nat -> OutboxId)
    requires id in t.heads && id in t.events && e.payload.Started?
    requires var p := ExpiryOf(e.payload);
             var d := ExpiryDetail(t.heads[id], e.payload);
             AppendAttempt(t, id, p, now, AttemptRecoveryRecorded, d, draw(1)) ==
               Done(WithEvent(t, id, AttemptEvent(t.heads[id], p, now), AttemptRecoveryRecorded, d, draw(1)),
                    AttemptEvent(t.heads[id], p, now))
    ensures var r := CloseAll(t, id, [e], now, draw); r.Done? && r.state.outbox.Keys == t.outbox.Keys + {draw(1)}
  {
    assert [e][1..] == [];
  }

  lemma RecoverFolds(t: Tables, id: ExecId, now: Time, draw: nat -> OutboxId)
    requires id in t.heads && id in t.events && OpenStarts(t.events[id]) != [] && t.heads[id].state == UNKNOWN
    requires forall e | e in OpenStarts(t.events[id]) :: e.payload.Started? && e.payload.deadline <= now
    requires var c := CloseAll(t, id, OpenStarts(t.events[id]), now, draw);
             && c.Done? && id in c.state.heads && id in c.state.events
             && Review(c.state, id, now, |OpenStarts(t.events[id])|, draw(0)).Done?
    ensures var v := Review(CloseAll(t, id, OpenStarts(t.events[id]), now, draw).state, id, now,
                            |OpenStarts(t.events[id])|, draw(0));
            RecoverUnfinished(t, id, now, true, draw) == Done(v.state, Some(v.value))
  {
  }

  /** Once its deadline has passed, an open attempt of an UNKNOWN head is always quarantined. */
  lemma RecoveryQuarantines(t: Tables, id: ExecId, now: Time, draw: nat -> OutboxId)
    requires Inv(t) && id in t.heads && t.heads[id].state == UNKNOWN && OpenStarts(t.events[id]) != []
    requires forall e | e in OpenStarts(t.events[id]) :: e.payload.Started? && e.payload.deadline <= now
    requires draw(0) !in t.outbox && draw(1) !in t.outbox && draw(0) != draw(1)
    ensures RecoverUnfinished(t, id, now, true, draw).Done?
    ensures Quarantined(t, RecoverUnfinished(t, id, now, true, draw).state, id, now)
  {
    AtMostOneOpen(t.events[id]);
    ExpiredAttemptCloses(t, id, now, draw);
    CloseAllKeeps(t, id, now, draw);
    var t1 := CloseAll(t, id, OpenStarts(t.events[id]), now, draw).state;
    ReviewCommits(t1, id, now, 1, draw(0));
    ReviewKeeps(t1, id, now, 1, draw(0));
    RecoverFolds(t, id, now, draw);
    QuarantineKeeps(t, id, now, t1, RecoverUnfinished(t, id, now, true, draw).state);
  }

  lemma ReviewCommits(t: Tables, id: ExecId, now: Time, unfinished: nat, drawn: OutboxId)
    requires Inv(t) && id in t.heads && t.heads[id].state == UNKNOWN && drawn !in t.outbox
    ensures Review(t, id, now, unfinished, drawn).Done?
  {
    var tr := RecoveryTransition(now, unfinished);
    AppendTransitionAppends(t, id, tr, RecoveryTransitionRecorded, ReviewDetail(tr), drawn);
  }
}
