/** What the invariant means for a reader of the tables after any run. */
module LedgerTheorems {
  import opened Basics
  import opened LedgerTypes
  import opened Operations
  import opened LedgerInvariant
  import opened AttemptDiscipline
  import opened LedgerSteps
  import opened Runs
  import opened Ownership

  ghost function Reached(w: World, steps: seq<Step>): Tables {
    RunFrom(w, steps).tables
  }

  // ---------------------------------------------------------------- generations

  predicate IsGeneration(r: Record, ns: Namespace, k: Key, g: int) {
    HasKey(r, ns, k) && r.generation == g
  }

  ghost predicate HasGeneration(rs: map<ExecId, Record>, ns: Namespace, k: Key, g: int) {
    exists id :: id in rs && IsGeneration(rs[id], ns, k, g)
  }

  /** A retained generation brings every lower one with it. */
  lemma LowerGenerationsRetained(rs: map<ExecId, Record>, ns: Namespace, k: Key, g: int, h: int)
    requires RecordsOk(rs) && HasGeneration(rs, ns, k, h) && 1 <= g <= h
    ensures HasGeneration(rs, ns, k, g)
    decreases h
  {
    if g < h {
      var a :| a in rs && IsGeneration(rs[a], ns, k, h);
      assert HasPredecessor(rs, a);
      var b :| IsPredecessor(rs, b, a);
      assert b in rs && IsGeneration(rs[b], ns, k, h - 1);
      LowerGenerationsRetained(rs, ns, k, g, h - 1);
    }
  }

  /** The retained generations of a key are exactly 1..n, one row each; all share one fingerprint,
      all below n are confirmed not applied, and only generation n may be pending. */
  lemma GenerationStructure(w: World, steps: seq<Step>, ns: Namespace, k: Key) returns (n: nat)
    requires IsStart(w) && FreshRun(w, steps)
    ensures var rs := Reached(w, steps).records;
            && (forall g: int :: 1 <= g <= n <==> HasGeneration(rs, ns, k, g))
            && (forall a, b | a in rs && b in rs && HasKey(rs[a], ns, k) && HasKey(rs[b], ns, k) ::
                  rs[a].fingerprint == rs[b].fingerprint && (rs[a].generation == rs[b].generation ==> a == b))
            && (forall a | a in rs && HasKey(rs[a], ns, k) && rs[a].state != NotApplied :: rs[a].generation == n)
  {
    EveryRun(w, steps);
    var rs := Reached(w, steps).records;
    var newest := Latest(rs, ns, k);
    forall j | j in rs && HasKey(rs[j], ns, k) ensures newest.Some? {
      LatestFindsARow(rs, ns, k, j);
    }
    if newest.None? {
      n := 0;
    } else {
      assert RowChecks(rs[newest.value]);
      n := rs[newest.value].generation;
      assert IsGeneration(rs[newest.value], ns, k, n);
      forall g: int ensures 1 <= g <= n <==> HasGeneration(rs, ns, k, g) {
        if 1 <= g <= n {
          LowerGenerationsRetained(rs, ns, k, g, n);
        }
        if HasGeneration(rs, ns, k, g) {
          var id :| id in rs && IsGeneration(rs[id], ns, k, g);
          assert RowChecks(rs[id]);
        }
      }
      forall a, b | a in rs && b in rs && HasKey(rs[a], ns, k) && HasKey(rs[b], ns, k) && a != b
        ensures Ordered(rs[a], rs[b])
      {
        assert SameKey(rs[a], rs[b]);
      }
    }
  }

  // ---------------------------------------------------------------- agreement across tables

  /** Every head has a retained row in the state and with the result its disposition prescribes;
      no pending row has a head; every prepared action belongs to a retained row. */
  lemma TablesAgree(w: World, steps: seq<Step>, id: ExecId)
    requires IsStart(w) && FreshRun(w, steps)
    ensures var t := Reached(w, steps);
            && (id in t.heads ==>
                  && id in t.records
                  && t.records[id].state == RecordStateFor(t.heads[id].disposition)
                  && t.records[id].result == (if t.heads[id].disposition == COMPLETED then t.heads[id].result else None))
            && (id in t.records && t.records[id].state == Pending ==> id !in t.heads)
            && (id in t.prepared ==> id in t.records && t.prepared[id].execId == id
                                     && t.prepared[id].digest == t.records[id].fingerprint)
  {
    EveryRun(w, steps);
  }

  /** Hence no transition ever finds the idempotency authority in another state. */
  lemma AuthorityAlwaysMatches(w: World, steps: seq<Step>, q: TransitionArgs)
    requires IsStart(w) && FreshRun(w, steps)
    ensures CompareAndAppendTransition(Reached(w, steps), q) != Refused(AuthorityMismatch)
    ensures CompareAndAppendTransition(Reached(w, steps), q) != Refused(OutboxConflict)
  {
    EveryRun(w, steps);
    SoundTablesMatch(Reached(w, steps), q);
  }

  lemma SoundTablesMatch(t: Tables, q: TransitionArgs)
    requires Inv(t)
    ensures CompareAndAppendTransition(t, q) != Refused(AuthorityMismatch)
    ensures CompareAndAppendTransition(t, q) != Refused(OutboxConflict)
  {
    var r := CompareAndAppendTransition(t, q);
    if r == Refused(AuthorityMismatch) || r == Refused(OutboxConflict) {
      RefusedByAppend(t, q);
      AppendTransitionAppends(t, q.execId, TransitionOf(q), AuditTypeOf(q), DetailOf(q), q.outboxId);
    }
  }

  /** Only the append itself can give these two answers. */
  lemma RefusedByAppend(t: Tables, q: TransitionArgs)
    requires CompareAndAppendTransition(t, q) in {Refused(AuthorityMismatch), Refused(OutboxConflict)}
    ensures q.execId in t.heads && q.execId in t.events
    ensures q.decision.ByFinding? ==> q.provider.Some? && q.attempt.Some?
    ensures LegalTransition(t.heads[q.execId].state, TransitionOf(q).newState)
    ensures CompareAndAppendTransition(t, q) ==
            AppendTransition(t, q.execId, TransitionOf(q), AuditTypeOf(q), DetailOf(q), q.outboxId)
  {
  }

  // ---------------------------------------------------------------- the head is its log

  /** The envelope shows every field of the head as the events up to its revision left it, and tells
      what the last of them was. */
  predicate ShowsHead(e: Envelope, a: Action, es: seq<Event>)
    requires e.revision <= |es|
  {
    var h := ReplayLog(a, e.payload.timestamp, es[..e.revision]);
    && e.payload == Payload(e.auditType, a.execId, a.digest, a.namespace, a.identity, e.payload.timestamp,
                            h.state, e.revision, h.disposition, e.payload.detail)
    && h.state == StateAfter(es[..e.revision])
    && if e.revision == 0 then e.auditType == UnknownRecorded
       else e.payload.timestamp == es[e.revision - 1].at && Reports(e.payload, es[e.revision - 1])
  }

  lemma WitnessShowsHead(e: Envelope, a: Action, es: seq<Event>)
    requires LogOk(es) && Witnesses(e, a, es)
    ensures ShowsHead(e, a, es)
  {
    PrefixOk(es, e.revision);
    ReplayShape(a, e.payload.timestamp, es[..e.revision]);
  }

  /** The head replays its log, and the outbox holds exactly one envelope for every revision from
      zero to the head's, each showing the head as it was then. */
  lemma HeadIsItsLog(w: World, steps: seq<Step>, id: ExecId)
    requires IsStart(w) && FreshRun(w, steps) && id in Reached(w, steps).heads
    ensures var t := Reached(w, steps);
            var h := t.heads[id];
            && id in t.events
            && h.revision == |t.events[id]|
            && h.state == StateAfter(t.events[id])
            && h.disposition == DispositionOf(h.state, h.result.Some?)
            && h == ReplayLog(h.action, h.updatedAt, t.events[id])
            && LogOk(t.events[id])
            && (forall r: nat | r <= h.revision :: HasEnvelope(t.outbox, id, r))
            && (forall o | o in t.outbox && t.outbox[o].execId == id ::
                  t.outbox[o].revision <= h.revision && ShowsHead(t.outbox[o], h.action, t.events[id]))
            && (forall o, p | o in t.outbox && p in t.outbox && t.outbox[o].execId == t.outbox[p].execId == id
                              && t.outbox[o].revision == t.outbox[p].revision :: o == p)
  {
    EveryRun(w, steps);
    var t := Reached(w, steps);
    var h := t.heads[id];
    ReplayShape(h.action, h.updatedAt, t.events[id]);
    forall o | o in t.outbox && t.outbox[o].execId == id
      ensures t.outbox[o].revision <= h.revision && ShowsHead(t.outbox[o], h.action, t.events[id])
    {
      assert Truthful(t.outbox[o], t.heads, t.events);
      WitnessShowsHead(t.outbox[o], h.action, t.events[id]);
    }
    forall o, p | o in t.outbox && p in t.outbox && t.outbox[o].execId == t.outbox[p].execId == id
                  && t.outbox[o].revision == t.outbox[p].revision ensures o == p
    {
      assert IsFor(t.outbox[o], t.outbox[p].execId, t.outbox[p].revision);
    }
  }

  // ---------------------------------------------------------------- what the last transition settles

  /** The last state transition of a log. */
  function LastMove(es: seq<Event>): Option<Transition> {
    if es == [] then None
    else if es[|es| - 1].payload.Moved? then Some(es[|es| - 1].payload.transition)
    else LastMove(es[..|es| - 1])
  }

  /** What a head shows once its last transition was `move`. */
  predicate HeadShows(move: Option<Transition>, h: Head) {
    match move
    case None => h.state == UNKNOWN && h.disposition == BLOCKED_UNKNOWN && h.result.None?
    case Some(tr) =>
      && h.state == tr.newState && h.result == tr.result
      && match tr.newState
         case UNKNOWN => false
         case MANUAL_REVIEW => h.disposition == BLOCKED_MANUAL_REVIEW
         case CONFIRMED_NOT_APPLIED => h.disposition == RETRY_ALLOWED
         case CONFIRMED_SUCCEEDED => h.disposition == if tr.result.Some? then COMPLETED else APPLIED_NO_RESULT
  }

  /** What the idempotency row shows then. */
  predicate RowShows(move: Option<Transition>, r: Record) {
    match move
    case None => r.state == Unknown && r.result.None?
    case Some(tr) =>
      match tr.newState
      case UNKNOWN => false
      case MANUAL_REVIEW => r.state == ManualReview && r.result.None?
      case CONFIRMED_NOT_APPLIED => r.state == NotApplied && r.result.None?
      case CONFIRMED_SUCCEEDED =>
        if tr.result.Some? then r.state == Completed && r.result == tr.result
        else r.state == AppliedNoResult && r.result.None?
  }

  lemma {:induction false} ReplayShowsLastMove(a: Action, created: Time, es: seq<Event>)
    requires LogOk(es)
    ensures HeadShows(LastMove(es), ReplayLog(a, created, es))
  {
    if es != [] {
      ReplayShowsLastMove(a, created, es[..|es| - 1]);
    }
  }

  /** In every run, head and idempotency row show exactly what the last transition in the log settled. */
  lemma LastMoveSettles(w: World, steps: seq<Step>, id: ExecId)
    requires IsStart(w) && FreshRun(w, steps) && id in Reached(w, steps).heads
    ensures var t := Reached(w, steps);
            && id in t.events && id in t.records
            && HeadShows(LastMove(t.events[id]), t.heads[id]) && RowShows(LastMove(t.events[id]), t.records[id])
  {
    EveryRun(w, steps);
    var t := Reached(w, steps);
    assert HeadOk(t.heads[id], t.events[id]) && Agrees(t.heads[id], t.records[id]);
    ReplayShowsLastMove(t.heads[id].action, t.heads[id].updatedAt, t.events[id]);
  }
}
