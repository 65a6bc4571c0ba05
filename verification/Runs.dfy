/** Runs: any sequence of transactions by any number of processes.

    The history records what each transaction did to ownership; owner tokens are fresh. */
module Runs {
  import opened Basics
  import opened LedgerTypes
  import opened Operations
  import opened LedgerInvariant
  import opened LedgerSteps

  datatype Step =
    | AcquireCall(q: AcquireArgs)
    | CompleteCall(claim: Claim, result: Json, now: Time)
    | FailCall(claim: Claim)
    | MarkUnknownCall(claim: Claim, error: Text, now: Time)
    | RenewCall(claim: Claim, now: Time, leaseSeconds: int)
    | PruneCall(cutoff: Time)
    | PrepareCall(claim: Claim, action: Action)
    | RecordUnknownCall(claim: Claim, action: Action, error: Text, now: Time, outboxId: OutboxId)
    | CreateUnknownCall(action: Action, outboxId: OutboxId)
    | StartCall(cx: AttemptContext, provider: Provider, expected: nat, now: Time, outboxId: OutboxId)
    | FinishCall(cx: AttemptContext, provider: Provider, outcome: AttemptOutcome, expected: nat,
                 finding: Option<Finding>, note: Option<Text>, now: Time, outboxId: OutboxId)
    | RecoverCall(execId: ExecId, now: Time, evidenceFits: bool, outboxId: OutboxId, reviewId: OutboxId)
    | TransitionCall(tq: TransitionArgs)
    | DeliveredCall(outboxId: OutboxId, now: Time)
    | DeliveryFailedCall(outboxId: OutboxId)

  function After<V>(t: Tables, r: Committed<V>): Tables {
    if r.Done? then r.state else t
  }

  /** Identifiers recovery draws: one for the finish it records, one for the move to review. */
  function Draws(finishId: OutboxId, reviewId: OutboxId): nat -> OutboxId {
    (k: nat) => if k == 0 then reviewId else finishId
  }

  ghost function Apply(t: Tables, s: Step): Tables {
    match s
    case AcquireCall(q) => After(t, Acquire(t, q))
    case CompleteCall(c, result, now) => After(t, Complete(t, c, result, now))
    case FailCall(c) => After(t, Fail(t, c))
    case MarkUnknownCall(c, error, now) => After(t, MarkUnknown(t, c, error, now))
    case RenewCall(c, now, lease) => After(t, Renew(t, c, now, lease))
    case PruneCall(cutoff) => After(t, PruneCompleted(t, cutoff))
    case PrepareCall(c, a) => After(t, PrepareAction(t, c, a))
    case RecordUnknownCall(c, a, error, now, o) => After(t, RecordUnknown(t, c, a, error, now, o))
    case CreateUnknownCall(a, o) => After(t, CreateUnknown(t, a, o))
    case StartCall(cx, p, expected, now, o) => After(t, StartAttempt(t, cx, p, expected, now, o))
    case FinishCall(cx, p, outcome, expected, finding, note, now, o) =>
      After(t, FinishAttempt(t, cx, p, outcome, expected, finding, note, now, o))
    case RecoverCall(id, now, fits, o, o') => After(t, RecoverUnfinished(t, id, now, fits, Draws(o, o')))
    case TransitionCall(q) => After(t, CompareAndAppendTransition(t, q))
    case DeliveredCall(o, now) => After(t, MarkDelivered(t, o, now))
    case DeliveryFailedCall(o) => After(t, RecordDeliveryFailure(t, o))
  }

  // ---------------------------------------------------------------- the invariant over runs

  predicate IsDeliveryMark(s: Step) {
    s.DeliveredCall? || s.DeliveryFailedCall?
  }

  predicate IsStoreCall(s: Step) {
    s.AcquireCall? || s.CompleteCall? || s.FailCall? || s.MarkUnknownCall? || s.RenewCall? || s.PruneCall?
  }

  /** Only delivery marks differ. */
  lemma DeliveryMarkKeeps(t: Tables, o: OutboxId, e: Envelope)
    requires Inv(t) && o in t.outbox
    requires e == t.outbox[o].(deliveredAt := e.deliveredAt, attempts := e.attempts)
    ensures Inv(t.(outbox := t.outbox[o := e]))
  {
    RemarkedOutboxOk(t, o, e);
  }

  lemma RemarkedOutboxOk(t: Tables, o: OutboxId, e: Envelope)
    requires OutboxOk(t) && o in t.outbox
    requires e == t.outbox[o].(deliveredAt := e.deliveredAt, attempts := e.attempts)
    ensures OutboxOk(t.(outbox := t.outbox[o := e]))
  {
    RemarkedIsGapless(t.outbox, t.events, o, e);
    assert Truthful(t.outbox[o], t.heads, t.events);
    TruthfulRemarked(t.outbox[o], e, t.heads, t.events);
  }

  lemma TruthfulRemarked(e: Envelope, e': Envelope, heads: map<ExecId, Head>, events: map<ExecId, seq<Event>>)
    requires Truthful(e, heads, events) && e' == e.(deliveredAt := e'.deliveredAt, attempts := e'.attempts)
    ensures Truthful(e', heads, events)
  {
  }

  lemma RemarkedIsGapless(outbox: map<OutboxId, Envelope>, events: map<ExecId, seq<Event>>, o: OutboxId, e: Envelope)
    requires Gapless(outbox, events) && o in outbox
    requires IsFor(e, outbox[o].execId, outbox[o].revision)
    ensures Gapless(outbox[o := e], events)
  {
    var outbox' := outbox[o := e];
    forall id, r: nat | id in events && r <= |events[id]| ensures HasEnvelope(outbox', id, r) {
      assert HasEnvelope(outbox, id, r);
      var p :| p in outbox && IsFor(outbox[p], id, r);
      assert p in outbox' && IsFor(outbox'[p], id, r);
    }
  }

  lemma StoreCallKeeps(t: Tables, s: Step)
    requires Inv(t) && IsStoreCall(s) && Apply(t, s) != t
    ensures Inv(Apply(t, s)) && Extends(t, Apply(t, s))
  {
    match s
    case AcquireCall(q) => AcquireKeeps(t, q);
    case CompleteCall(c, result, now) => CompleteKeeps(t, c, result, now);
    case FailCall(c) => FailKeeps(t, c);
    case MarkUnknownCall(c, error, now) => MarkUnknownKeeps(t, c, error, now);
    case RenewCall(c, now, lease) => RenewKeeps(t, c, now, lease);
    case PruneCall(cutoff) => PruneKeeps(t, cutoff);
  }

  lemma LedgerCallKeeps(t: Tables, s: Step)
    requires Inv(t) && !IsStoreCall(s) && !IsDeliveryMark(s) && Apply(t, s) != t
    ensures Inv(Apply(t, s)) && Extends(t, Apply(t, s))
  {
    match s
    case PrepareCall(c, a) => PrepareKeeps(t, c, a);
    case RecordUnknownCall(c, a, error, now, o) => RecordUnknownKeeps(t, c, a, error, now, o);
    case CreateUnknownCall(a, o) => CreateUnknownKeeps(t, a, o);
    case StartCall(cx, p, expected, now, o) => StartKeeps(t, cx, p, expected, now, o);
    case FinishCall(cx, p, outcome, expected, finding, note, now, o) =>
      FinishKeeps(t, cx, p, outcome, expected, finding, note, now, o);
    case RecoverCall(id, now, fits, o, o') => RecoverKeeps(t, id, now, fits, Draws(o, o'));
    case TransitionCall(q) => TransitionKeeps(t, q);
  }

  lemma ApplyKeeps(t: Tables, s: Step)
    requires Inv(t)
    ensures Inv(Apply(t, s))
    ensures !IsDeliveryMark(s) ==> Extends(t, Apply(t, s))
  {
    if Apply(t, s) == t {
      ExtendsItself(t);
    } else if IsStoreCall(s) {
      StoreCallKeeps(t, s);
    } else if IsDeliveryMark(s) {
      DeliveryCallKeeps(t, s);
    } else {
      LedgerCallKeeps(t, s);
    }
  }

  lemma ExtendsItself(t: Tables)
    ensures Extends(t, t)
  {
  }

  lemma DeliveryCallKeeps(t: Tables, s: Step)
    requires Inv(t) && IsDeliveryMark(s) && Apply(t, s) != t
    ensures Inv(Apply(t, s))
  {
    MarkRemarks(t, s);
    DeliveryMarkKeeps(t, s.outboxId, Apply(t, s).outbox[s.outboxId]);
  }

  /** A delivery mark changes the marks of one envelope. */
  lemma MarkRemarks(t: Tables, s: Step)
    requires IsDeliveryMark(s) && Apply(t, s) != t
    ensures s.outboxId in t.outbox && s.outboxId in Apply(t, s).outbox
    ensures var e := Apply(t, s).outbox[s.outboxId];
            && e == t.outbox[s.outboxId].(deliveredAt := e.deliveredAt, attempts := e.attempts)
            && Apply(t, s) == t.(outbox := t.outbox[s.outboxId := e])
  {
  }

  lemma MarksLeaveLogs(t: Tables, s: Step)
    requires IsDeliveryMark(s)
    ensures Apply(t, s) == t.(outbox := Apply(t, s).outbox)
  {
  }

  /** Event logs are append-only. */
  lemma LogsGrow(t: Tables, s: Step, id: ExecId)
    requires Inv(t) && id in t.events
    ensures id in Apply(t, s).events && t.events[id] <= Apply(t, s).events[id]
  {
    if IsDeliveryMark(s) {
      MarksLeaveLogs(t, s);
    } else {
      ApplyKeeps(t, s);
    }
  }

  // ---------------------------------------------------------------- what a step does to ownership

  /** How an owner's hold on its row ended, with what the ending call was given. */
  datatype How =
    | ByComplete(result: Json, at: Time)
    | ByFail
    | ByMarkUnknown(error: Text, at: Time)
    | ByRecordUnknown(error: Text, at: Time)
    | ByLeaseExpiry(at: Time)

  datatype Effect =
    | NoEffect
    | Claimed(namespace: Namespace, key: Key, execId: ExecId, token: Token, fingerprint: Fingerprint, until: Time, at: Time)
    | Settled(token: Token, execId: ExecId, how: How)
    | Renewed(token: Token, execId: ExecId, until: Time, at: Time)
    | Pruned(ids: set<ExecId>, cutoff: Time)
    | Reconciled(execId: ExecId, to: HeadState, result: Option<Json>, at: Time)

  /** What a decision settles: the state, the result and the time it names. */
  function DecidedAs(id: ExecId, d: Decision): Effect {
    match d
    case ByFinding(f) => Reconciled(id, f.proposed, f.result, f.observedAt)
    case ByResolution(m) => Reconciled(id, m.newState, m.result, m.resolvedAt)
  }

  /** Which effect a call has is read off its reply; everything else in it is what the caller passed. */
  ghost function EffectOf(t: Tables, s: Step): Effect {
    match s
    case AcquireCall(q) =>
      (match Acquire(t, q)
       case Done(_, Owner(id, _)) =>
         Claimed(q.namespace, q.key, id, q.token, q.fingerprint, q.now + q.leaseSeconds, q.now)
       case Done(_, OutcomeUnknown(id)) =>
         if id in t.records && t.records[id].owner.Some? then Settled(t.records[id].owner.value, id, ByLeaseExpiry(q.now))
         else NoEffect
       case _ => NoEffect)
    case CompleteCall(c, result, now) =>
      if c.owner && Holds(t.records, c) then Settled(c.token.value, c.execId, ByComplete(result, now)) else NoEffect
    case FailCall(c) => if c.owner && Holds(t.records, c) then Settled(c.token.value, c.execId, ByFail) else NoEffect
    case MarkUnknownCall(c, error, now) =>
      if c.owner && Holds(t.records, c) then Settled(c.token.value, c.execId, ByMarkUnknown(error, now)) else NoEffect
    case RenewCall(c, now, lease) =>
      if Renew(t, c, now, lease).Done? then Renewed(c.token.value, c.execId, now + lease, now) else NoEffect
    case PruneCall(cutoff) => Pruned(Prunable(t, cutoff), cutoff)
    case RecordUnknownCall(c, a, error, now, o) =>
      if RecordUnknown(t, c, a, error, now, o).Done? then Settled(c.token.value, c.execId, ByRecordUnknown(error, now))
      else NoEffect
    case RecoverCall(id, now, fits, o, o') =>
      var r := RecoverUnfinished(t, id, now, fits, Draws(o, o'));
      if r.Done? && r.state != t then Reconciled(id, MANUAL_REVIEW, None, now) else NoEffect
    case TransitionCall(q) => if CompareAndAppendTransition(t, q).Done? then DecidedAs(q.execId, q.decision) else NoEffect
    case _ => NoEffect
  }
}
