/** The evidence validator's view of reconciliation, and the ledger's. */
module Lineage {
  import opened Basics
  import opened LedgerTypes
  import opened Operations
  import opened LedgerInvariant
  import opened AttemptDiscipline
  import opened Runs
  import opened Ownership
  import opened LedgerDriver

  datatype LineageEntry = LineageEntry(number: int, prior: HeadState, next: HeadState, createdAt: Time)

  /** The validator keeps its own table of moves. */
  const MOVES: map<HeadState, set<HeadState>> :=
    map[UNKNOWN := {CONFIRMED_SUCCEEDED, CONFIRMED_NOT_APPLIED, MANUAL_REVIEW},
        MANUAL_REVIEW := {CONFIRMED_SUCCEEDED, CONFIRMED_NOT_APPLIED}]

  /** Entry `i` is numbered in turn and moves legally from where the one before it ended. */
  predicate OnPath(entries: seq<LineageEntry>, i: int) {
    && 0 <= i < |entries|
    && entries[i].number == i + 1
    && entries[i].prior == (if i == 0 then UNKNOWN else entries[i - 1].next)
    && LegalTransition(entries[i].prior, entries[i].next)
  }

  /** And it is not earlier either. */
  predicate Follows(entries: seq<LineageEntry>, i: int) {
    && OnPath(entries, i)
    && (i > 0 ==> entries[i - 1].createdAt <= entries[i].createdAt)
  }

  /** A path of the ledger's state machine from UNKNOWN, in order of time. */
  predicate IsLineage(entries: seq<LineageEntry>) {
    forall i | 0 <= i < |entries| :: Follows(entries, i)
  }

  /** The validator accepts exactly the ledger's paths. */
  method ValidateLineage(entries: seq<LineageEntry>) returns (ok: bool)
    ensures ok <==> IsLineage(entries)
  {
    var previousState: Option<HeadState> := None;
    var previousTime: Option<Time> := None;
    for i := 0 to |entries|
      invariant previousState == (if i == 0 then None else Some(entries[i - 1].next))
      invariant previousTime == (if i == 0 then None else Some(entries[i - 1].createdAt))
      invariant forall j | 0 <= j < i :: Follows(entries, j)
    {
      var entry := entries[i];
      if entry.number != i + 1
         || (i == 0 && entry.prior != UNKNOWN)
         || (previousTime.Some? && entry.createdAt < previousTime.value)
         || (previousState.Some? && entry.prior != previousState.value)
         || entry.prior !in MOVES
         || entry.next !in MOVES[entry.prior] {
        assert !Follows(entries, i);
        return false;
      }
      assert Follows(entries, i);
      previousState := Some(entry.next);
      previousTime := Some(entry.createdAt);
    }
    ok := true;
  }

  /** An accepted lineage has at most two entries, and nothing follows a confirmed state. */
  lemma LineageIsShort(entries: seq<LineageEntry>)
    requires IsLineage(entries)
    ensures |entries| <= 2
    ensures |entries| == 2 ==> entries[0].next == MANUAL_REVIEW
    ensures forall i | 0 <= i < |entries| - 1 :: entries[i].next !in {CONFIRMED_SUCCEEDED, CONFIRMED_NOT_APPLIED}
  {
    assert |entries| >= 1 ==> Follows(entries, 0);
    assert |entries| >= 2 ==> Follows(entries, 1);
    assert |entries| >= 3 ==> !Follows(entries, 2);
  }

  // ---------------------------------------------------------------- from the ledger

  /** The transitions of a ledger log, renumbered from one. */
  function Projection(es: seq<Event>): seq<LineageEntry> {
    if es == [] then []
    else
      var rest := Projection(es[..|es| - 1]);
      var e := es[|es| - 1];
      if e.payload.Moved? then rest + [LineageEntry(|rest| + 1, e.before, e.after, e.at)] else rest
  }

  predicate NotEarlier(entries: seq<LineageEntry>, i: int) {
    0 < i < |entries| && entries[i - 1].createdAt <= entries[i].createdAt
  }

  predicate InOrderOfTime(entries: seq<LineageEntry>) {
    forall i | 0 < i < |entries| :: NotEarlier(entries, i)
  }

  /** Everything but the times is right in any ledger log, and it ends in the log's state. */
  lemma {:induction false} ProjectionIsAPath(es: seq<Event>)
    requires LogOk(es)
    ensures var p := Projection(es);
            && (forall i | 0 <= i < |p| :: OnPath(p, i))
            && StateAfter(es) == if p == [] then UNKNOWN else p[|p| - 1].next
  {
    if es != [] {
      var rest, p := Projection(es[..|es| - 1]), Projection(es);
      ProjectionIsAPath(es[..|es| - 1]);
      forall i | 0 <= i < |p| ensures OnPath(p, i) {
        if i < |rest| {
          PathExtends(rest, p, i);
        }
      }
    }
  }

  lemma PathExtends(rest: seq<LineageEntry>, p: seq<LineageEntry>, i: nat)
    requires rest <= p && i < |rest| && OnPath(rest, i)
    ensures OnPath(p, i)
  {
    assert p[i] == rest[i] && (i > 0 ==> p[i - 1] == rest[i - 1]);
  }

  /** A ledger history is accepted exactly when its transition times do not go backwards. */
  lemma HistoryAcceptedIff(es: seq<Event>)
    requires LogOk(es)
    ensures IsLineage(Projection(es)) <==> InOrderOfTime(Projection(es))
  {
    ProjectionIsAPath(es);
    var p := Projection(es);
    if IsLineage(p) {
      forall i | 0 < i < |p| ensures NotEarlier(p, i) {
        assert Follows(p, i);
      }
    }
    if InOrderOfTime(p) {
      forall i | 0 <= i < |p| ensures Follows(p, i) {
        assert OnPath(p, i);
        assert i > 0 ==> NotEarlier(p, i);
      }
    }
  }

  /** So for the log of every head in every run. */
  lemma RunAcceptedIff(w: World, steps: seq<Step>, id: ExecId)
    requires IsStart(w) && FreshRun(w, steps) && id in RunFrom(w, steps).tables.heads
    ensures var t := RunFrom(w, steps).tables;
            id in t.events && (IsLineage(Projection(t.events[id])) <==> InOrderOfTime(Projection(t.events[id])))
  {
    EveryRun(w, steps);
    var t := RunFrom(w, steps).tables;
    assert HeadOk(t.heads[id], t.events[id]);
    HistoryAcceptedIff(t.events[id]);
  }

  // ---------------------------------------------------------------- back to the ledger

  function FindingFor(e: LineageEntry, kind: EvidenceKind): FindingFields {
    FindingFields(e.next, kind, ExpiredAttempts(0), e.createdAt, e.next == CONFIRMED_NOT_APPLIED, None)
  }

  function ResolutionFor(e: LineageEntry): ResolutionFields {
    ResolutionFields(ExecId(0), Operator(0), Message(0), 3, e.next, e.createdAt, RuntimeKind, ExpiredAttempts(0),
                     e.next == CONFIRMED_NOT_APPLIED, None)
  }

  /** The log of one successful attempt. */
  function OneAttempt(c: Cast, f: Finding): seq<Event> {
    var s := StartedEvent([], ContextOf(c, c.first), c.provider, 1);
    [s, FinishedEvent([s], ContextOf(c, c.first), c.provider, f, 2)]
  }

  lemma OneAttemptLeads(c: Cast, f: Finding) returns (steps: seq<Step>)
    requires Distinct(c) && f.kind in c.provider.kinds
    ensures Leads(steps, ActionOf(c), OneAttempt(c, f), {c.draws(0), c.draws(1), c.draws(2)})
    ensures HasConfirmingFinish(OneAttempt(c, f), c.first, c.provider.id, f)
    ensures Projection(OneAttempt(c, f)) == [] && StateAfter(OneAttempt(c, f)) == UNKNOWN
  {
    var es, cx, p := OneAttempt(c, f), ContextOf(c, c.first), c.provider;
    OpeningLeads(c);
    StartLeads(Opening(c), [], {c.draws(0)}, cx, p, 1, c.draws(1));
    assert [] + [es[0]] == [es[0]];
    assert SoleStart([es[0]], c.first, 0);
    var more := Opening(c) + [StartCall(cx, p, 0, 1, c.draws(1))];
    FinishLeads(more, [es[0]], {c.draws(0)} + {c.draws(1)}, cx, p, f, 2, c.draws(2));
    steps := more + [FinishStep([es[0]], cx, p, f, 2, c.draws(2))];
    assert [es[0]] + [es[1]] == es;
    assert {c.draws(0)} + {c.draws(1)} + {c.draws(2)} == {c.draws(0), c.draws(1), c.draws(2)};
    assert ConfirmsFinding(es[1], c.first, p.id, f);
    AttemptIsNoEntry(c, f);
  }

  lemma AttemptIsNoEntry(c: Cast, f: Finding)
    ensures Projection(OneAttempt(c, f)) == []
  {
    var es := OneAttempt(c, f);
    assert es[..1] == [es[0]] && [es[0]][..0] == [];
    assert Projection([es[0]]) == Projection([]) == [];
  }

  lemma ProjectionSnoc(es: seq<Event>, e: Event)
    requires e.payload.Moved?
    ensures Projection(es + [e]) == Projection(es) + [LineageEntry(|Projection(es)| + 1, e.before, e.after, e.at)]
  {
    assert (es + [e])[..|es|] == es;
  }

  /** A first entry arises from one attempt and the commit of its finding. */
  lemma FirstEntryArises(c: Cast, kind: EvidenceKind, e: LineageEntry) returns (steps: seq<Step>, es: seq<Event>)
    requires Distinct(c) && kind in c.provider.kinds
    requires e.number == 1 && e.prior == UNKNOWN && LegalTransition(UNKNOWN, e.next)
    ensures Leads(steps, ActionOf(c), es, {c.draws(0), c.draws(1), c.draws(2)} + {c.draws(3)})
    ensures |es| == 3 && StateAfter(es) == e.next && Projection(es) == [e]
  {
    var f: Finding := FindingFor(e, kind);
    var before := OneAttempt(c, f);
    steps := OneAttemptLeads(c, f);
    var q := TransitionArgs(ExecId(0), UNKNOWN, 2, ByFinding(f), Some(c.provider), Some(c.first), true, c.draws(3));
    TransitionLeads(steps, ActionOf(c), before, {c.draws(0), c.draws(1), c.draws(2)}, q);
    steps := steps + [TransitionCall(q)];
    es := before + [MovedEvent(before, q)];
    ProjectionSnoc(before, MovedEvent(before, q));
  }

  /** Every accepted lineage is the history of some run of the ledger. */
  lemma EveryLineageArises(entries: seq<LineageEntry>, c: Cast, kind: EvidenceKind) returns (steps: seq<Step>)
    requires IsLineage(entries) && Distinct(c) && kind in c.provider.kinds
    ensures FreshRun(BEGINNING, steps)
    ensures var t := RunFrom(BEGINNING, steps).tables;
            ExecId(0) in t.heads && ExecId(0) in t.events && Projection(t.events[ExecId(0)]) == entries
  {
    LineageIsShort(entries);
    if entries == [] {
      OpeningLeads(c);
      steps := Opening(c);
    } else {
      assert Follows(entries, 0);
      var es;
      steps, es := FirstEntryArises(c, kind, entries[0]);
      assert [entries[0]] == entries[..1];
      if |entries| == 2 {
        assert Follows(entries, 1);
        var m: Resolution := ResolutionFor(entries[1]);
        var q := TransitionArgs(ExecId(0), MANUAL_REVIEW, 3, ByResolution(m), None, None, true, c.draws(4));
        TransitionLeads(steps, ActionOf(c), es, {c.draws(0), c.draws(1), c.draws(2)} + {c.draws(3)}, q);
        steps := steps + [TransitionCall(q)];
        ProjectionSnoc(es, MovedEvent(es, q));
        assert entries == [entries[0]] + [entries[1]];
      }
    }
  }
}
