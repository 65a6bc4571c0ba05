/** Calls that drive one execution along a given log: how to reach a state of the ledger by a run. */
module LedgerDriver {
  import opened Basics
  import opened LedgerTypes
  import opened Operations
  import opened LedgerInvariant
  import opened AttemptDiscipline
  import opened LedgerSteps
  import opened Runs
  import opened Ownership
  import opened ReconciliationRuns

  /** The head of `a` stands at the end of log `es`, and `used` are the outbox ids taken so far. */
  ghost predicate At(t: Tables, a: Action, es: seq<Event>, used: set<OutboxId>) {
    && a.execId in t.heads && a.execId in t.events
    && t.heads[a.execId].action == a
    && t.events[a.execId] == es
    && t.outbox.Keys == used
  }

  lemma HeadAtEnd(t: Tables, a: Action, es: seq<Event>, used: set<OutboxId>)
    requires LogsOk(t) && At(t, a, es, used)
    ensures t.heads[a.execId].state == StateAfter(es) && t.heads[a.execId].revision == |es| && LogOk(es)
  {
    assert HeadOk(t.heads[a.execId], es);
    ReplayShape(t.heads[a.execId].action, t.heads[a.execId].updatedAt, es);
  }

  /** What an append leaves behind, once it is known to be one. */
  lemma AppendArrives(t: Tables, t': Tables, a: Action, es: seq<Event>, used: set<OutboxId>, e: Event, ty: AuditType,
                      d: Detail, drawn: OutboxId)
    requires At(t, a, es, used) && Appended(t, t', a.execId, e, ty, d, drawn)
    ensures At(t', a, es + [e], used + {drawn})
  {
  }

  // ---------------------------------------------------------------- one call

  function StartedEvent(es: seq<Event>, cx: AttemptContext, p: Provider, at: Time): Event {
    Event(|es| + 1, UNKNOWN, UNKNOWN, at, Started(cx.attempt, cx.deadline, cx.version, p.id))
  }

  lemma StartUnfolds(t: Tables, cx: AttemptContext, p: Provider, at: Time, drawn: OutboxId)
    requires cx.action.execId in t.heads && cx.action.execId in t.events
    requires var h := t.heads[cx.action.execId]; h.action == cx.action && h.state == UNKNOWN && cx.version == p.version
    ensures StartAttempt(t, cx, p, t.heads[cx.action.execId].revision, at, drawn) ==
            AppendAttempt(t, cx.action.execId, Started(cx.attempt, cx.deadline, cx.version, p.id), at, AttemptStarted,
                          StartDetail(cx, p), drawn)
  {
  }

  lemma StartArrives(t: Tables, es: seq<Event>, used: set<OutboxId>, cx: AttemptContext, p: Provider, at: Time, drawn: OutboxId)
    requires At(t, cx.action, es, used) && cx.version == p.version && drawn !in used
    requires var h := t.heads[cx.action.execId]; h.state == UNKNOWN && h.revision == |es|
    requires var id, e, d := cx.action.execId, StartedEvent(es, cx, p, at), StartDetail(cx, p);
             AppendAttempt(t, id, e.payload, at, AttemptStarted, d, drawn) ==
               Done(WithEvent(t, id, e, AttemptStarted, d, drawn), e)
    ensures At(Apply(t, StartCall(cx, p, |es|, at, drawn)), cx.action, es + [StartedEvent(es, cx, p, at)], used + {drawn})
  {
    var id, e, d := cx.action.execId, StartedEvent(es, cx, p, at), StartDetail(cx, p);
    StartUnfolds(t, cx, p, at, drawn);
    AppendArrives(t, WithEvent(t, id, e, AttemptStarted, d, drawn), cx.action, es, used, e, AttemptStarted, d, drawn);
  }

  lemma StartDrives(t: Tables, es: seq<Event>, used: set<OutboxId>, cx: AttemptContext, p: Provider, at: Time, drawn: OutboxId)
    requires Inv(t) && At(t, cx.action, es, used) && StateAfter(es) == UNKNOWN && cx.version == p.version && drawn !in used
    requires AttemptRefusal(es, Started(cx.attempt, cx.deadline, cx.version, p.id)).None?
    ensures At(Apply(t, StartCall(cx, p, |es|, at, drawn)), cx.action, es + [StartedEvent(es, cx, p, at)], used + {drawn})
  {
    HeadAtEnd(t, cx.action, es, used);
    AttemptCommits(t, cx.action.execId, StartedEvent(es, cx, p, at).payload, at, AttemptStarted, StartDetail(cx, p), drawn);
    StartArrives(t, es, used, cx, p, at, drawn);
  }

  function FinishedEvent(es: seq<Event>, cx: AttemptContext, p: Provider, f: Finding, at: Time): Event {
    Event(|es| + 1, UNKNOWN, UNKNOWN, at, Finished(cx.attempt, p.id, Success, Some(f), None))
  }

  function FinishStep(es: seq<Event>, cx: AttemptContext, p: Provider, f: Finding, at: Time, drawn: OutboxId): Step {
    FinishCall(cx, p, Success, |es|, Some(f), None, at, drawn)
  }

  lemma FinishUnfolds(t: Tables, cx: AttemptContext, p: Provider, f: Finding, at: Time, drawn: OutboxId)
    requires cx.action.execId in t.heads && cx.action.execId in t.events
    requires t.heads[cx.action.execId].action == cx.action && cx.version == p.version && f.kind in p.kinds
    ensures FinishAttempt(t, cx, p, Success, t.heads[cx.action.execId].revision, Some(f), None, at, drawn) ==
            AppendAttempt(t, cx.action.execId, Finished(cx.attempt, p.id, Success, Some(f), None), at, AttemptFinished,
                          FinishDetail(cx, p, Success, Some(f)), drawn)
  {
  }

  lemma FinishArrives(t: Tables, es: seq<Event>, used: set<OutboxId>, cx: AttemptContext, p: Provider, f: Finding, at: Time,
                      drawn: OutboxId)
    requires At(t, cx.action, es, used) && cx.version == p.version && drawn !in used && f.kind in p.kinds
    requires var h := t.heads[cx.action.execId]; h.state == UNKNOWN && h.revision == |es|
    requires var id, e, d := cx.action.execId, FinishedEvent(es, cx, p, f, at), FinishDetail(cx, p, Success, Some(f));
             AppendAttempt(t, id, e.payload, at, AttemptFinished, d, drawn) ==
               Done(WithEvent(t, id, e, AttemptFinished, d, drawn), e)
    ensures At(Apply(t, FinishStep(es, cx, p, f, at, drawn)), cx.action, es + [FinishedEvent(es, cx, p, f, at)], used + {drawn})
  {
    var id, e, d := cx.action.execId, FinishedEvent(es, cx, p, f, at), FinishDetail(cx, p, Success, Some(f));
    FinishUnfolds(t, cx, p, f, at, drawn);
    AppendArrives(t, WithEvent(t, id, e, AttemptFinished, d, drawn), cx.action, es, used, e, AttemptFinished, d, drawn);
  }

  lemma FinishDrives(t: Tables, es: seq<Event>, used: set<OutboxId>, cx: AttemptContext, p: Provider, f: Finding, at: Time,
                     drawn: OutboxId)
    requires Inv(t) && At(t, cx.action, es, used) && StateAfter(es) == UNKNOWN && cx.version == p.version && drawn !in used
    requires f.kind in p.kinds && AttemptRefusal(es, Finished(cx.attempt, p.id, Success, Some(f), None)).None?
    ensures At(Apply(t, FinishStep(es, cx, p, f, at, drawn)), cx.action, es + [FinishedEvent(es, cx, p, f, at)], used + {drawn})
  {
    HeadAtEnd(t, cx.action, es, used);
    AttemptCommits(t, cx.action.execId, FinishedEvent(es, cx, p, f, at).payload, at, AttemptFinished,
                   FinishDetail(cx, p, Success, Some(f)), drawn);
    FinishArrives(t, es, used, cx, p, f, at, drawn);
  }

  function MovedEvent(es: seq<Event>, q: TransitionArgs): Event
    requires q.decision.ByFinding? ==> q.provider.Some? && q.attempt.Some?
  {
    Event(|es| + 1, StateAfter(es), TransitionOf(q).newState, TransitionOf(q).at, Moved(TransitionOf(q)))
  }

  /** Nothing is left to refuse but the append itself. */
  ghost predicate Passes(h: Head, es: seq<Event>, q: TransitionArgs) {
    && q.expectedState == h.state && q.expectedRevision == h.revision && q.evidenceValid
    && DecisionRefusal(h, es, q).None?
  }

  lemma PassingUnfolds(t: Tables, q: TransitionArgs)
    requires q.execId in t.heads && q.execId in t.events && Passes(t.heads[q.execId], t.events[q.execId], q)
    ensures q.decision.ByFinding? ==> q.provider.Some? && q.attempt.Some?
    ensures CompareAndAppendTransition(t, q) ==
            AppendTransition(t, q.execId, TransitionOf(q), AuditTypeOf(q), DetailOf(q), q.outboxId)
  {
  }

  lemma TransitionArrives(t: Tables, t': Tables, a: Action, es: seq<Event>, used: set<OutboxId>, q: TransitionArgs)
    requires At(t, a, es, used) && q.execId == a.execId && q.outboxId !in used
    requires Passes(t.heads[a.execId], es, q) && (q.decision.ByFinding? ==> q.provider.Some? && q.attempt.Some?)
    requires var r := AppendTransition(t, a.execId, TransitionOf(q), AuditTypeOf(q), DetailOf(q), q.outboxId);
             r.Done? && r.state == t'
    requires Appended(t, t', a.execId, MovedEvent(es, q), AuditTypeOf(q), DetailOf(q), q.outboxId)
    ensures At(Apply(t, TransitionCall(q)), a, es + [MovedEvent(es, q)], used + {q.outboxId})
  {
    PassingUnfolds(t, q);
    AppendArrives(t, t', a, es, used, MovedEvent(es, q), AuditTypeOf(q), DetailOf(q), q.outboxId);
  }

  lemma TransitionDrives(t: Tables, a: Action, es: seq<Event>, used: set<OutboxId>, q: TransitionArgs)
    requires Inv(t) && At(t, a, es, used) && q.execId == a.execId && q.outboxId !in used
    requires q.decision.ByFinding? ==> q.provider.Some? && q.attempt.Some?
    requires Passes(t.heads[a.execId], es, q) && LegalTransition(StateAfter(es), TransitionOf(q).newState)
    ensures At(Apply(t, TransitionCall(q)), a, es + [MovedEvent(es, q)], used + {q.outboxId})
  {
    HeadAtEnd(t, a, es, used);
    AppendTransitionAppends(t, a.execId, TransitionOf(q), AuditTypeOf(q), DetailOf(q), q.outboxId);
    TransitionArrives(t, AppendTransition(t, a.execId, TransitionOf(q), AuditTypeOf(q), DetailOf(q), q.outboxId).state,
                      a, es, used, q);
  }

  // ---------------------------------------------------------------- runs

  /** A run from the empty database that brings the head of `a` to the end of `es`. */
  ghost predicate Leads(steps: seq<Step>, a: Action, es: seq<Event>, used: set<OutboxId>) {
    FreshRun(BEGINNING, steps) && At(RunFrom(BEGINNING, steps).tables, a, es, used)
  }

  lemma {:induction false} RunSnoc(w: World, steps: seq<Step>, s: Step)
    ensures RunFrom(w, steps + [s]) == Next(RunFrom(w, steps), s)
    ensures FreshRun(w, steps + [s]) <==> FreshRun(w, steps) && FreshToken(RunFrom(w, steps).hist, s)
    decreases |steps|
  {
    if steps == [] {
      assert [] + [s] == [s] && [s][1..] == [];
    } else {
      assert (steps + [s])[0] == steps[0] && (steps + [s])[1..] == steps[1..] + [s];
      RunSnoc(Next(w, steps[0]), steps[1..], s);
    }
  }

  lemma OneMoreCall(steps: seq<Step>, s: Step, a: Action, es: seq<Event>, used: set<OutboxId>)
    requires FreshRun(BEGINNING, steps) && !s.AcquireCall?
    requires At(Apply(RunFrom(BEGINNING, steps).tables, s), a, es, used)
    ensures Leads(steps + [s], a, es, used)
  {
    RunSnoc(BEGINNING, steps, s);
  }

  // ---------------------------------------------------------------- the first two calls

  /** The identifiers a run draws. */
  datatype Cast = Cast(
    namespace: Namespace,
    key: Key,
    fingerprint: Fingerprint,
    token: Token,
    identity: Identity,
    descriptor: Descriptor,
    provider: Provider,
    first: AttemptId,
    second: AttemptId,
    draws: nat -> OutboxId)

  /** Drawn identifiers do not repeat. */
  predicate Distinct(c: Cast) {
    c.first != c.second && forall i: nat, j: nat | i < j < 5 :: c.draws(i) != c.draws(j)
  }

  function ActionOf(c: Cast): Action {
    Action(ExecId(0), c.fingerprint, NamespaceDigest(c.namespace), c.identity, 0, c.provider.kinds, c.descriptor)
  }

  function ContextOf(c: Cast, attempt: AttemptId): AttemptContext {
    AttemptContext(attempt, 100, c.provider.version, ActionOf(c))
  }

  /** An owner claims the key and records its outcome as unknown. */
  function Opening(c: Cast): seq<Step> {
    var q := AcquireArgs(c.namespace, c.key, c.fingerprint, None, c.token, ExecId(0), 0, 30, c.draws(0));
    var claim := Claim(c.namespace, c.key, c.fingerprint, true, Some(c.token), ExecId(0));
    [AcquireCall(q), RecordUnknownCall(claim, ActionOf(c), Message(0), 0, c.draws(0))]
  }

  lemma OpeningLeads(c: Cast)
    ensures Leads(Opening(c), ActionOf(c), [], {c.draws(0)})
  {
    var s0, s1 := Opening(c)[0], Opening(c)[1];
    FirstClaim(c);
    FirstUnknown(c);
    assert RunFrom(BEGINNING, [s0]) == Next(BEGINNING, s0) && FreshRun(BEGINNING, [s0]) by {
      assert [s0][1..] == [];
      assert RunFrom(Next(BEGINNING, s0), []) == Next(BEGINNING, s0);
    }
    assert [s0] + [s1] == Opening(c);
    OneMoreCall([s0], s1, ActionOf(c), [], {c.draws(0)});
  }

  lemma FirstUnknown(c: Cast)
    ensures At(Apply(ClaimedTables(c), Opening(c)[1]), ActionOf(c), [], {c.draws(0)})
  {
    var t := Apply(ClaimedTables(c), Opening(c)[1]);
    assert t.outbox == map[c.draws(0) := t.outbox[c.draws(0)]];
  }

  function ClaimedTables(c: Cast): Tables {
    EMPTY.(records := map[ExecId(0) := PendingRow(c.namespace, c.key, 1, c.fingerprint, c.token, 30, 0)])
  }

  lemma FirstClaim(c: Cast)
    ensures Apply(EMPTY, Opening(c)[0]) == ClaimedTables(c)
  {
    assert Latest(EMPTY.records, c.namespace, c.key).None?;
  }

  // ---------------------------------------------------------------- one more call on a run

  lemma RunIsSound(steps: seq<Step>)
    requires FreshRun(BEGINNING, steps)
    ensures Inv(RunFrom(BEGINNING, steps).tables)
  {
    BeginningIsStart();
    EveryRun(BEGINNING, steps);
  }

  lemma StartLeads(steps: seq<Step>, es: seq<Event>, used: set<OutboxId>, cx: AttemptContext, p: Provider, at: Time, drawn: OutboxId)
    requires Leads(steps, cx.action, es, used) && StateAfter(es) == UNKNOWN && cx.version == p.version && drawn !in used
    requires AttemptRefusal(es, Started(cx.attempt, cx.deadline, cx.version, p.id)).None?
    ensures Leads(steps + [StartCall(cx, p, |es|, at, drawn)], cx.action, es + [StartedEvent(es, cx, p, at)], used + {drawn})
  {
    RunIsSound(steps);
    StartDrives(RunFrom(BEGINNING, steps).tables, es, used, cx, p, at, drawn);
    OneMoreCall(steps, StartCall(cx, p, |es|, at, drawn), cx.action, es + [StartedEvent(es, cx, p, at)], used + {drawn});
  }

  lemma FinishLeads(steps: seq<Step>, es: seq<Event>, used: set<OutboxId>, cx: AttemptContext, p: Provider, f: Finding, at: Time,
                    drawn: OutboxId)
    requires Leads(steps, cx.action, es, used) && StateAfter(es) == UNKNOWN && cx.version == p.version && drawn !in used
    requires f.kind in p.kinds && AttemptRefusal(es, Finished(cx.attempt, p.id, Success, Some(f), None)).None?
    ensures Leads(steps + [FinishStep(es, cx, p, f, at, drawn)], cx.action, es + [FinishedEvent(es, cx, p, f, at)], used + {drawn})
  {
    RunIsSound(steps);
    FinishDrives(RunFrom(BEGINNING, steps).tables, es, used, cx, p, f, at, drawn);
    OneMoreCall(steps, FinishStep(es, cx, p, f, at, drawn), cx.action, es + [FinishedEvent(es, cx, p, f, at)], used + {drawn});
  }

  /** A transition call whose parts fit the end of the log it addresses. */
  ghost predicate FitsEnd(a: Action, es: seq<Event>, q: TransitionArgs) {
    && q.execId == a.execId && q.expectedState == StateAfter(es) && q.expectedRevision == |es| && q.evidenceValid
    && match q.decision
       case ByFinding(f) =>
         && q.provider.Some? && q.attempt.Some? && f.kind in q.provider.value.kinds && StateAfter(es) == UNKNOWN
         && HasConfirmingFinish(es, q.attempt.value, q.provider.value.id, f)
       case ByResolution(m) =>
         && q.provider.None? && q.attempt.None? && m.execId == a.execId && m.expectedRevision == |es|
         && StateAfter(es) == MANUAL_REVIEW
  }

  lemma EndPasses(h: Head, a: Action, es: seq<Event>, q: TransitionArgs)
    requires FitsEnd(a, es, q) && h.state == StateAfter(es) && h.revision == |es|
    ensures Passes(h, es, q) && LegalTransition(StateAfter(es), TransitionOf(q).newState)
  {
  }

  lemma TransitionLeads(steps: seq<Step>, a: Action, es: seq<Event>, used: set<OutboxId>, q: TransitionArgs)
    requires Leads(steps, a, es, used) && FitsEnd(a, es, q) && q.outboxId !in used
    ensures Leads(steps + [TransitionCall(q)], a, es + [MovedEvent(es, q)], used + {q.outboxId})
  {
    RunIsSound(steps);
    var t := RunFrom(BEGINNING, steps).tables;
    HeadAtEnd(t, a, es, used);
    EndPasses(t.heads[a.execId], a, es, q);
    TransitionDrives(t, a, es, used, q);
    OneMoreCall(steps, TransitionCall(q), a, es + [MovedEvent(es, q)], used + {q.outboxId});
  }
}
