/** When an attempt stays open on a head that has left UNKNOWN: exactly when, for every log and every
    run, and a run in which it happens. */
module StrandedAttempts {
  import opened Basics
  import opened LedgerTypes
  import opened Operations
  import opened LedgerInvariant
  import opened AttemptDiscipline
  import opened LedgerSteps
  import opened Runs
  import opened Ownership
  import opened LedgerDriver

  /** Event `k` moves the log out of UNKNOWN while an attempt is open that never finishes later. */
  predicate StrandsAt(es: seq<Event>, k: int) {
    && 0 <= k < |es|
    && es[k].payload.Moved? && es[k].before == UNKNOWN
    && OpenStarts(es[..k]) != []
    && forall j | k < j < |es| :: !Closes(es[j], OpenStarts(es[..k])[0])
  }

  /** `e` finishes the attempt that `start` began. */
  predicate Closes(e: Event, start: Event) {
    e.payload.Finished? && start.payload.Started? && e.payload.attempt == start.payload.attempt
  }

  // ---------------------------------------------------------------- the way out of UNKNOWN

  lemma {:induction false} NeverBackToUnknown(es: seq<Event>, k: nat, j: nat)
    requires LogOk(es) && k < j < |es| && es[k].after != UNKNOWN
    ensures es[j].before != UNKNOWN
    decreases j
  {
    LogLinks(es, j);
    if k < j - 1 {
      NeverBackToUnknown(es, k, j - 1);
      AppendableAt(es, j - 1);
    }
  }

  lemma {:induction false} WayOut(es: seq<Event>) returns (k: nat)
    requires LogOk(es) && StateAfter(es) != UNKNOWN
    ensures k < |es| && es[k].payload.Moved? && es[k].before == UNKNOWN && es[k].after != UNKNOWN
    decreases |es|
  {
    var n := |es| - 1;
    if es[n].before == UNKNOWN {
      k := n;
    } else {
      k := WayOut(es[..n]);
    }
  }

  // ---------------------------------------------------------------- exactly when

  /** An attempt that no finish names is open at every prefix behind its start. */
  lemma OpenSince(es: seq<Event>, i: nat, k: nat)
    requires LogOk(es) && i < k <= |es| && es[i].payload.Started? && SoleStart(es, es[i].payload.attempt, i)
    ensures OpenStarts(es[..k]) == [es[i]]
  {
    var pre := es[..k];
    PrefixOk(es, k);
    forall j | 0 <= j < |pre| && pre[j].payload.Finished? ensures pre[j].payload.attempt != pre[i].payload.attempt {
      assert !Names(es[j], es[i].payload.attempt);
    }
    UnfinishedIsOpen(pre, i);
    AtMostOneOpen(pre);
  }

  lemma StrandedHasMove(es: seq<Event>)
    requires LogOk(es) && StateAfter(es) != UNKNOWN && OpenStarts(es) != []
    ensures exists k :: StrandsAt(es, k)
  {
    var e := OpenStarts(es)[0];
    var i := OpenIsSole(es, e);
    var k := WayOut(es);
    AppendableAt(es, i);
    if k < i {
      NeverBackToUnknown(es, k, i);
    }
    OpenSince(es, i, k);
    forall j | k < j < |es| ensures !Closes(es[j], e) {
      assert !Names(es[j], e.payload.attempt);
    }
    assert StrandsAt(es, k);
  }

  lemma MoveStrands(es: seq<Event>, k: nat)
    requires LogOk(es) && StrandsAt(es, k)
    ensures OpenStarts(es) != []
  {
    var pre := es[..k];
    PrefixOk(es, k);
    var e := OpenStarts(pre)[0];
    var i := OpenIsSole(pre, e);
    forall j | 0 <= j < |es| && es[j].payload.Finished? ensures es[j].payload.attempt != es[i].payload.attempt {
      if j < k {
        assert !Names(pre[j], e.payload.attempt);
      } else if j > k {
        assert !Closes(es[j], e);
      }
    }
    UnfinishedIsOpen(es, i);
  }

  /** A log outside UNKNOWN has an open attempt if and only if it left UNKNOWN while one was open that
      never finishes. */
  lemma StrandedIff(es: seq<Event>)
    requires LogOk(es) && StateAfter(es) != UNKNOWN
    ensures OpenStarts(es) != [] <==> exists k :: StrandsAt(es, k)
  {
    if OpenStarts(es) != [] {
      StrandedHasMove(es);
    }
    if k :| StrandsAt(es, k) {
      MoveStrands(es, k);
    }
  }

  /** The same for every head in every run. */
  lemma StrandedRunIff(w: World, steps: seq<Step>, id: ExecId)
    requires IsStart(w) && FreshRun(w, steps)
    requires id in RunFrom(w, steps).tables.heads && RunFrom(w, steps).tables.heads[id].state != UNKNOWN
    ensures var t := RunFrom(w, steps).tables;
            id in t.events && (OpenStarts(t.events[id]) != [] <==> exists k :: StrandsAt(t.events[id], k))
  {
    EveryRun(w, steps);
    var t := RunFrom(w, steps).tables;
    assert HeadOk(t.heads[id], t.events[id]);
    ReplayShape(t.heads[id].action, t.heads[id].updatedAt, t.events[id]);
    StrandedIff(t.events[id]);
  }

  // ---------------------------------------------------------------- a run in which it happens

  function CommitFirstFinding(c: Cast, f: Finding): TransitionArgs {
    TransitionArgs(ExecId(0), UNKNOWN, 3, ByFinding(f), Some(c.provider), Some(c.first), true, c.draws(4))
  }

  /** Claim, record as unknown, start and finish a first attempt, start a second one, and then commit
      the first attempt's finding at the revision that is current. */
  function StrandingSteps(c: Cast, f: Finding): seq<Step> {
    var first, second := ContextOf(c, c.first), ContextOf(c, c.second);
    Opening(c)
    + [StartCall(first, c.provider, 0, 1, c.draws(1))]
    + [FinishCall(first, c.provider, Success, 1, Some(f), None, 2, c.draws(2))]
    + [StartCall(second, c.provider, 2, 3, c.draws(3))]
    + [TransitionCall(CommitFirstFinding(c, f))]
  }

  /** The log before the transition. */
  function TwoAttempts(c: Cast, f: Finding): seq<Event> {
    var first, second := ContextOf(c, c.first), ContextOf(c, c.second);
    var s := StartedEvent([], first, c.provider, 1);
    var e := FinishedEvent([s], first, c.provider, f, 2);
    [s, e, StartedEvent([s, e], second, c.provider, 3)]
  }

  lemma TwoAttemptsAllowed(c: Cast, f: Finding)
    requires c.first != c.second
    ensures var es := TwoAttempts(c, f);
            && AttemptRefusal([], es[0].payload).None? && AttemptRefusal([es[0]], es[1].payload).None?
            && AttemptRefusal([es[0], es[1]], es[2].payload).None?
            && HasConfirmingFinish(es, c.first, c.provider.id, f) && OpenStarts(es) == [es[2]]
  {
    var es := TwoAttempts(c, f);
    assert [es[0]][..0] == [] && [es[0], es[1]][..1] == [es[0]] && es[..2] == [es[0], es[1]];
    assert SoleStart([es[0]], c.first, 0);
    assert OpenStarts([es[0]]) == [es[0]];
    assert OpenStarts([es[0], es[1]]) == Without([es[0]], c.first) == [];
    assert ConfirmsFinding(es[1], c.first, c.provider.id, f);
  }

  lemma TwoAttemptsLead(c: Cast, f: Finding) returns (steps: seq<Step>)
    requires Distinct(c) && f.kind in c.provider.kinds
    ensures Leads(steps, ActionOf(c), TwoAttempts(c, f), {c.draws(0), c.draws(1), c.draws(2), c.draws(3)})
    ensures steps + [TransitionCall(CommitFirstFinding(c, f))] == StrandingSteps(c, f)
  {
    var es, p := TwoAttempts(c, f), c.provider;
    var first, second := ContextOf(c, c.first), ContextOf(c, c.second);
    TwoAttemptsAllowed(c, f);
    OpeningLeads(c);
    steps := Opening(c);
    StartLeads(steps, [], {c.draws(0)}, first, p, 1, c.draws(1));
    steps := steps + [StartCall(first, p, 0, 1, c.draws(1))];
    assert [] + [es[0]] == [es[0]];
    FinishLeads(steps, [es[0]], {c.draws(0)} + {c.draws(1)}, first, p, f, 2, c.draws(2));
    steps := steps + [FinishStep([es[0]], first, p, f, 2, c.draws(2))];
    assert [es[0]] + [es[1]] == [es[0], es[1]];
    StartLeads(steps, [es[0], es[1]], {c.draws(0)} + {c.draws(1)} + {c.draws(2)}, second, p, 3, c.draws(3));
    steps := steps + [StartCall(second, p, 2, 3, c.draws(3))];
    assert [es[0], es[1]] + [es[2]] == es;
    assert {c.draws(0)} + {c.draws(1)} + {c.draws(2)} + {c.draws(3)} == {c.draws(0), c.draws(1), c.draws(2), c.draws(3)};
  }

  lemma StrandingLeads(c: Cast, f: Finding)
    requires Distinct(c) && f.kind in c.provider.kinds
    ensures var es, q := TwoAttempts(c, f), CommitFirstFinding(c, f);
            Leads(StrandingSteps(c, f), ActionOf(c), es + [MovedEvent(es, q)],
                  {c.draws(0), c.draws(1), c.draws(2), c.draws(3)} + {c.draws(4)})
  {
    TwoAttemptsAllowed(c, f);
    var steps := TwoAttemptsLead(c, f);
    TransitionLeads(steps, ActionOf(c), TwoAttempts(c, f), {c.draws(0), c.draws(1), c.draws(2), c.draws(3)},
                    CommitFirstFinding(c, f));
  }

  lemma SecondStaysOpen(c: Cast, f: Finding)
    requires c.first != c.second
    ensures var es := TwoAttempts(c, f); OpenStarts(es + [MovedEvent(es, CommitFirstFinding(c, f))]) == [es[2]]
  {
    var es := TwoAttempts(c, f);
    TwoAttemptsAllowed(c, f);
    assert (es + [MovedEvent(es, CommitFirstFinding(c, f))])[..3] == es;
  }

  /** The ledger accepts every call of this run, and at its end the head has left UNKNOWN with the
      second attempt still open. */
  lemma StrandingRun(c: Cast, f: Finding)
    requires Distinct(c) && f.kind in c.provider.kinds
    ensures FreshRun(BEGINNING, StrandingSteps(c, f))
    ensures var t := RunFrom(BEGINNING, StrandingSteps(c, f)).tables;
            && ExecId(0) in t.heads && ExecId(0) in t.events
            && t.heads[ExecId(0)].state == f.proposed != UNKNOWN
            && OpenStarts(t.events[ExecId(0)]) == [TwoAttempts(c, f)[2]]
  {
    StrandingLeads(c, f);
    RunIsSound(StrandingSteps(c, f));
    EndOfStranding(RunFrom(BEGINNING, StrandingSteps(c, f)).tables, c, f);
  }

  lemma EndOfStranding(t: Tables, c: Cast, f: Finding)
    requires LogsOk(t) && c.first != c.second
    requires var es, q := TwoAttempts(c, f), CommitFirstFinding(c, f);
             At(t, ActionOf(c), es + [MovedEvent(es, q)], {c.draws(0), c.draws(1), c.draws(2), c.draws(3)} + {c.draws(4)})
    ensures t.heads[ExecId(0)].state == f.proposed != UNKNOWN
    ensures OpenStarts(t.events[ExecId(0)]) == [TwoAttempts(c, f)[2]]
  {
    var es, q := TwoAttempts(c, f), CommitFirstFinding(c, f);
    HeadAtEnd(t, ActionOf(c), es + [MovedEvent(es, q)],
              {c.draws(0), c.draws(1), c.draws(2), c.draws(3)} + {c.draws(4)});
    SecondStaysOpen(c, f);
  }
}
