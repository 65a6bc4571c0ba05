/** The scans over a persisted attempt log that guard every append. */
module AttemptScan {
  import opened Basics
  import opened LedgerTypes
  import opened Operations
  import opened LedgerInvariant
  import opened AttemptDiscipline

  /** The collected starts whose attempt is not among the finished ones, in order. */
  function Unfinished(starts: seq<Event>, finished: set<AttemptId>): (open: seq<Event>)
    requires forall e | e in starts :: e.payload.Started?
  {
    if starts == [] then []
    else Unfinished(starts[..|starts| - 1], finished)
         + (if starts[|starts| - 1].payload.attempt in finished then [] else [starts[|starts| - 1]])
  }

  lemma WithoutOfConcat(s: seq<Event>, t: seq<Event>, a: AttemptId)
    ensures Without(s + t, a) == Without(s, a) + Without(t, a)
  {
    if s == [] {
      assert s + t == t;
    } else {
      assert (s + t)[1..] == s[1..] + t;
      WithoutOfConcat(s[1..], t, a);
    }
  }

  lemma FinishingCloses(starts: seq<Event>, finished: set<AttemptId>, a: AttemptId)
    requires forall e | e in starts :: e.payload.Started?
    ensures Unfinished(starts, finished + {a}) == Without(Unfinished(starts, finished), a)
  {
    if starts != [] {
      var n := |starts| - 1;
      FinishingCloses(starts[..n], finished, a);
      WithoutOfConcat(Unfinished(starts[..n], finished), if starts[n].payload.attempt in finished then [] else [starts[n]], a);
    }
  }

  predicate StartsBefore(es: seq<Event>, k: int, a: AttemptId) {
    exists i | 0 <= i < k && i < |es| :: es[i].payload.Started? && es[i].payload.attempt == a
  }

  predicate FinishesBefore(es: seq<Event>, k: int, a: AttemptId) {
    exists i | 0 <= i < k && i < |es| :: es[i].payload.Finished? && es[i].payload.attempt == a
  }

  predicate PairedAt(es: seq<Event>, k: int) {
    && 0 <= k < |es|
    && match es[k].payload
       case Started(a, _, _, _) => !StartsBefore(es, k, a)
       case Finished(a, _, _, _, _) => StartsBefore(es, k, a) && !FinishesBefore(es, k, a)
       case Moved(_) => true
  }

  /** No attempt starts twice, and every finish has an earlier start and no earlier finish. */
  predicate Paired(es: seq<Event>) {
    forall k | 0 <= k < |es| :: PairedAt(es, k)
  }

  /** A log built by the ledger always is. */
  lemma LogIsPaired(es: seq<Event>)
    requires LogOk(es)
    ensures Paired(es)
  {
    forall k | 0 <= k < |es| ensures PairedAt(es, k) {
      match es[k].payload
      case Started(a, _, _, _) =>
        forall i | 0 <= i < |es| && es[i].payload.Started? && es[i].payload.attempt == a ensures i == k {
          StartedOnce(es, i, k);
        }
      case Finished(a, _, _, _, _) =>
        var i := FinishHasStart(es, k);
        forall j | 0 <= j < |es| && es[j].payload.Finished? && es[j].payload.attempt == a ensures j == k {
          FinishedOnce(es, j, k);
        }
      case Moved(_) =>
    }
  }

  /** Starts without a terminal record, oldest first; the scan raises exactly on a log whose starts
      and finishes do not pair up. */
  method UnmatchedStarts(es: seq<Event>) returns (open: Option<seq<Event>>)
    ensures open.Some? <==> Paired(es)
    ensures open.Some? ==> open.value == OpenStarts(es)
  {
    var starts: seq<Event> := [];
    var started: set<AttemptId> := {};
    var finished: set<AttemptId> := {};
    for k := 0 to |es|
      invariant forall e | e in starts :: e.payload.Started?
      invariant forall a :: a in started <==> StartsBefore(es, k, a)
      invariant forall a :: a in finished <==> FinishesBefore(es, k, a)
      invariant finished <= started
      invariant forall j | 0 <= j < k :: PairedAt(es, j)
      invariant Unfinished(starts, finished) == OpenStarts(es[..k])
    {
      var e := es[k];
      assert es[..k + 1][..k] == es[..k];
      OneMore(es, k);
      match e.payload
      case Started(a, _, _, _) =>
        if a in started {
          assert !PairedAt(es, k);
          return None;
        }
        assert (starts + [e])[..|starts|] == starts;
        starts := starts + [e];
        started := started + {a};
      case Finished(a, _, _, _, _) =>
        if a !in started || a in finished {
          assert !PairedAt(es, k);
          return None;
        }
        FinishingCloses(starts, finished, a);
        finished := finished + {a};
      case Moved(_) =>
    }
    assert es[..|es|] == es;
    open := Some(Unfinished(starts, finished));
  }

  lemma OneMore(es: seq<Event>, k: nat)
    requires k < |es|
    ensures forall a :: StartsBefore(es, k + 1, a) <==>
                          StartsBefore(es, k, a) || (es[k].payload.Started? && es[k].payload.attempt == a)
    ensures forall a :: FinishesBefore(es, k + 1, a) <==>
                          FinishesBefore(es, k, a) || (es[k].payload.Finished? && es[k].payload.attempt == a)
  {
    forall a ensures FinishesBefore(es, k + 1, a) <==>
                       FinishesBefore(es, k, a) || (es[k].payload.Finished? && es[k].payload.attempt == a)
    {
      if FinishesBefore(es, k, a) {
        var i :| 0 <= i < k && i < |es| && es[i].payload.Finished? && es[i].payload.attempt == a;
        assert i < k + 1;
      }
    }
  }

  predicate Begins(e: Event, a: AttemptId) {
    Names(e, a) && e.payload.Started?
  }

  /** The check before every append of a start or a finish. */
  method ValidateAttemptAppend(es: seq<Event>, p: EventPayload) returns (refusal: Option<Error>)
    requires !p.Moved?
    ensures refusal == if p.Started? && !Mentions(es, p.attempt) && !Paired(es) then Some(MalformedLog)
                       else AttemptRefusal(es, p)
  {
    var starts: seq<Event> := [];
    var finishes: seq<Event> := [];
    ghost var first, second := 0, 0;
    for k := 0 to |es|
      invariant forall i | 0 <= i < |starts| :: starts[i].payload.Started?
      invariant |starts| >= 1 ==> first < k && Begins(es[first], p.attempt) && starts[0] == es[first]
      invariant |starts| >= 2 ==> first < second < k && Begins(es[second], p.attempt)
      invariant |starts| <= 1 ==> forall j | 0 <= j < k && Begins(es[j], p.attempt) :: |starts| == 1 && j == first
      invariant finishes == [] <==> forall j | 0 <= j < k && Names(es[j], p.attempt) :: Begins(es[j], p.attempt)
    {
      if Names(es[k], p.attempt) {
        if es[k].payload.Started? {
          if starts == [] {
            first := k;
          } else if |starts| == 1 {
            second := k;
          }
          starts := starts + [es[k]];
        } else {
          finishes := finishes + [es[k]];
        }
      }
    }
    if p.Started? {
      if starts != [] || finishes != [] {
        return Some(AttemptConflict);
      }
      var open := UnmatchedStarts(es);
      if open.None? {
        return Some(MalformedLog);
      }
      return if open.value != [] then Some(AttemptConflict) else None;
    }
    if |starts| != 1 || finishes != [] {
      return Some(AttemptConflict);
    }
    assert SoleStart(es, p.attempt, first);
    if starts[0].payload.provider != p.provider {
      return Some(AttemptProviderDiffers);
    }
    refusal := None;
  }

  /** A provider's transition needs the successful finish that carries its finding. */
  method RequireFinishedAttempt(es: seq<Event>, a: AttemptId, p: ProviderId, f: Finding) returns (found: bool)
    ensures found == HasConfirmingFinish(es, a, p, f)
  {
    for k := 0 to |es|
      invariant forall i | 0 <= i < k :: !ConfirmsFinding(es[i], a, p, f)
    {
      if es[k].payload.Finished? && es[k].payload.attempt == a && es[k].payload.provider == p
         && es[k].payload.outcome == Success && es[k].payload.finding == Some(f) {
        assert ConfirmsFinding(es[k], a, p, f);
        return true;
      }
    }
    found := false;
  }

  /** The parts of a call fit together: a finding comes with its provider, its attempt and a kind
      the provider supports; a resolution comes alone, for this head at this revision. */
  predicate WellAddressed(h: Head, q: TransitionArgs) {
    match q.decision
    case ByFinding(f) => q.provider.Some? && q.attempt.Some? && f.kind in q.provider.value.kinds
    case ByResolution(m) =>
      q.provider.None? && q.attempt.None? && m.execId == q.execId && m.expectedRevision == h.revision
  }

  lemma DecisionFits(h: Head, es: seq<Event>, q: TransitionArgs)
    requires HeadOk(h, es) && WellAddressed(h, q) && LegalTransition(h.state, TransitionOf(q).newState)
    ensures DecisionRefusal(h, es, q).None? <==> Appendable(es, TransitionEvent(h, TransitionOf(q)))
  {
    ReplayShape(h.action, h.updatedAt, es);
  }

  /** Whether a decision may move this head.  A call whose parts do not fit is refused; otherwise a
      legal move is let through exactly when the head's log accepts it as its next event. */
  method RefuseDecision(h: Head, es: seq<Event>, q: TransitionArgs) returns (refusal: Option<Error>)
    ensures refusal == DecisionRefusal(h, es, q)
    ensures refusal.None? ==> WellAddressed(h, q)
    ensures HeadOk(h, es) && WellAddressed(h, q) && LegalTransition(h.state, TransitionOf(q).newState) ==>
              (refusal.None? <==> Appendable(es, TransitionEvent(h, TransitionOf(q))))
  {
    if HeadOk(h, es) && WellAddressed(h, q) && LegalTransition(h.state, TransitionOf(q).newState) {
      DecisionFits(h, es, q);
    }
    match q.decision
    case ByFinding(f) =>
      if q.provider.None? {
        return Some(InvalidArgument);
      }
      if h.state == MANUAL_REVIEW {
        return Some(IllegalTransition);
      }
      if f.kind !in q.provider.value.kinds || q.attempt.None? {
        return Some(InvalidArgument);
      }
      var found := RequireFinishedAttempt(es, q.attempt.value, q.provider.value.id, f);
      return if found then None else Some(NoMatchingFinish);
    case ByResolution(m) =>
      if q.provider.Some? || q.attempt.Some? || m.execId != q.execId {
        return Some(InvalidArgument);
      }
      return if h.state != MANUAL_REVIEW || m.expectedRevision != h.revision then Some(CasConflict) else None;
  }
}
