/** What a legal event log looks like as a whole: attempts, findings and states. */
module AttemptDiscipline {
  import opened Basics
  import opened LedgerTypes
  import opened Operations
  import opened LedgerInvariant

  lemma PrefixOk(es: seq<Event>, k: nat)
    requires LogOk(es) && k <= |es|
    ensures LogOk(es[..k])
  {
    if k == |es| {
      assert es[..k] == es;
    } else {
      assert es[..|es| - 1][..k] == es[..k];
      PrefixOk(es[..|es| - 1], k);
    }
  }

  /** Every event was appendable where it stands. */
  lemma AppendableAt(es: seq<Event>, k: nat)
    requires LogOk(es) && k < |es|
    ensures Appendable(es[..k], es[k])
  {
    PrefixOk(es, k + 1);
    assert es[..k + 1][..k] == es[..k];
  }

  /** Revisions are exactly 1..n and each event starts in the state the previous one left. */
  lemma LogLinks(es: seq<Event>, k: nat)
    requires LogOk(es) && k < |es|
    ensures es[k].revision == k + 1
    ensures es[k].before == if k == 0 then UNKNOWN else es[k - 1].after
  {
    AppendableAt(es, k);
  }

  // ---------------------------------------------------------------- starts and finishes

  /** An attempt id is started once. */
  lemma StartedOnce(es: seq<Event>, i: nat, j: nat)
    requires LogOk(es) && i < |es| && j < |es|
    requires es[i].payload.Started? && es[j].payload.Started? && es[i].payload.attempt == es[j].payload.attempt
    ensures i == j
  {
    var lo, hi := if i < j then i else j, if i < j then j else i;
    AppendableAt(es, hi);
    if lo < hi {
      assert Names(es[..hi][lo], es[hi].payload.attempt);
    }
  }

  /** Every finish closes one earlier start of the same provider. */
  lemma FinishHasStart(es: seq<Event>, j: nat) returns (i: nat)
    requires LogOk(es) && j < |es| && es[j].payload.Finished?
    ensures i < j && es[i].payload.Started?
    ensures es[i].payload.attempt == es[j].payload.attempt && es[i].payload.provider == es[j].payload.provider
  {
    AppendableAt(es, j);
    var k :| 0 <= k < |es[..j]| && SoleStart(es[..j], es[j].payload.attempt, k)
             && es[..j][k].payload.provider == es[j].payload.provider;
    i := k;
  }

  /** An attempt id is finished at most once. */
  lemma FinishedOnce(es: seq<Event>, i: nat, j: nat)
    requires LogOk(es) && i < |es| && j < |es|
    requires es[i].payload.Finished? && es[j].payload.Finished? && es[i].payload.attempt == es[j].payload.attempt
    ensures i == j
  {
    var lo, hi := if i < j then i else j, if i < j then j else i;
    AppendableAt(es, hi);
    if lo < hi {
      var k :| 0 <= k < |es[..hi]| && SoleStart(es[..hi], es[hi].payload.attempt, k);
      assert Names(es[..hi][lo], es[hi].payload.attempt);
    }
  }

  /** At most one attempt is ever open. */
  lemma AtMostOneOpen(es: seq<Event>)
    requires LogOk(es)
    ensures |OpenStarts(es)| <= 1
  {
    if es != [] {
      var rest := es[..|es| - 1];
      AtMostOneOpen(rest);
      if es[|es| - 1].payload.Finished? {
        WithoutShrinks(OpenStarts(rest), es[|es| - 1].payload.attempt);
      }
    }
  }

  lemma WithoutShrinks(starts: seq<Event>, a: AttemptId)
    ensures |Without(starts, a)| <= |starts|
  {
  }

  /** An open start is named nowhere else in its log. */
  lemma {:induction false} OpenIsSole(es: seq<Event>, e: Event) returns (i: nat)
    requires LogOk(es) && e in OpenStarts(es)
    ensures e.payload.Started? && SoleStart(es, e.payload.attempt, i) && es[i] == e
    decreases |es|
  {
    var n := |es| - 1;
    var rest, last := es[..n], es[n];
    if last.payload.Started? {
      assert OpenStarts(rest) == [];
      i := n;
      NewestIsSole(es);
    } else {
      if last.payload.Finished? {
        WithoutIsASubset(OpenStarts(rest), last.payload.attempt);
      }
      i := OpenIsSole(rest, e);
      SoleStays(rest, last, e.payload.attempt, i);
      assert es == rest + [last];
    }
  }

  lemma NewestIsSole(es: seq<Event>)
    requires es != [] && es[|es| - 1].payload.Started? && !Mentions(es[..|es| - 1], es[|es| - 1].payload.attempt)
    ensures SoleStart(es, es[|es| - 1].payload.attempt, |es| - 1)
  {
    var n := |es| - 1;
    forall j | 0 <= j < |es| && j != n ensures !Names(es[j], es[n].payload.attempt) {
      assert es[..n][j] == es[j];
    }
  }

  lemma SoleStays(es: seq<Event>, last: Event, a: AttemptId, i: nat)
    requires SoleStart(es, a, i) && !Names(last, a)
    ensures SoleStart(es + [last], a, i)
  {
  }

  /** A start that no finish names is open. */
  lemma UnfinishedIsOpen(es: seq<Event>, i: nat)
    requires LogOk(es) && i < |es| && es[i].payload.Started?
    requires forall j | 0 <= j < |es| && es[j].payload.Finished? :: es[j].payload.attempt != es[i].payload.attempt
    ensures es[i] in OpenStarts(es)
  {
    var n := |es| - 1;
    if i < n {
      var rest := es[..n];
      assert forall j | 0 <= j < |rest| :: rest[j] == es[j];
      UnfinishedIsOpen(rest, i);
      if es[n].payload.Finished? {
        WithoutIsASubset(OpenStarts(rest), es[n].payload.attempt);
      }
    }
  }

  // ---------------------------------------------------------------- transitions

  /** Every provider transition restates the finding of an earlier successful attempt, and every
      confirmation that an effect was not applied carries the retry-safe assertion. */
  lemma TransitionsRestOnFindings(es: seq<Event>, k: nat) returns (i: nat)
    requires LogOk(es) && k < |es| && es[k].payload.Moved? && es[k].payload.transition.source == FromProvider
    ensures i < k && es[i].payload.Finished? && es[i].payload.outcome == Success
    ensures es[k].payload.transition.attempt == Some(es[i].payload.attempt)
    ensures es[k].payload.transition.provider == Some(es[i].payload.provider)
    ensures es[i].payload.finding.Some? && es[i].payload.finding.value == FindingOf(es[k].payload.transition)
  {
    AppendableAt(es, k);
    var tr := es[k].payload.transition;
    var j :| 0 <= j < |es[..k]| && ConfirmsFinding(es[..k][j], tr.attempt.value, tr.provider.value, FindingOf(tr));
    i := j;
  }

  lemma RetrySafeAsserted(es: seq<Event>, k: nat)
    requires LogOk(es) && k < |es| && es[k].payload.Moved?
    ensures es[k].after == CONFIRMED_NOT_APPLIED <==> es[k].payload.transition.retrySafe
  {
    AppendableAt(es, k);
  }

  /** After a confirmed state the log holds no further transition and no further start. */
  lemma ConfirmedIsFinal(es: seq<Event>, i: nat, j: nat)
    requires LogOk(es) && i < j < |es| && es[i].after in {CONFIRMED_SUCCEEDED, CONFIRMED_NOT_APPLIED}
    ensures es[j].payload.Finished? && es[j].after == es[i].after
    decreases j
  {
    AppendableAt(es, j);
    if i < j - 1 {
      ConfirmedIsFinal(es, i, j - 1);
    }
    LogLinks(es, j);
  }

  // ---------------------------------------------------------------- transitioning at one's own finish

  /** Every provider transition directly follows the finish of its own attempt. */
  predicate OwnFinish(es: seq<Event>) {
    forall k | 0 <= k < |es| :: OwnFinishAt(es, k)
  }

  predicate OwnFinishAt(es: seq<Event>, k: int) {
    && 0 <= k < |es|
    && (es[k].payload.Moved? && es[k].payload.transition.source == FromProvider ==>
          k > 0 && ClosesFor(es[k - 1], es[k].payload.transition.attempt))
  }

  predicate ClosesFor(e: Event, a: Option<AttemptId>) {
    e.payload.Finished? && Some(e.payload.attempt) == a
  }

  /** Then a start is followed by nothing but its own finish ... */
  lemma StartThenOwnFinish(es: seq<Event>, i: nat)
    requires LogOk(es) && OwnFinish(es) && i + 1 < |es| && es[i].payload.Started?
    ensures es[i + 1].payload.Finished? && es[i + 1].payload.attempt == es[i].payload.attempt
  {
    OnlyTheNewestIsOpen(es, i);
    AfterStartComesFinish(es, i);
    FinishClosesTheOpenOne(es, i);
  }

  lemma OnlyTheNewestIsOpen(es: seq<Event>, i: nat)
    requires LogOk(es) && i < |es| && es[i].payload.Started?
    ensures OpenStarts(es[..i + 1]) == [es[i]] && es[i].after == UNKNOWN
  {
    AppendableAt(es, i);
    assert es[..i + 1][..i] == es[..i];
  }

  lemma AfterStartComesFinish(es: seq<Event>, i: nat)
    requires LogOk(es) && OwnFinish(es) && i + 1 < |es| && es[i].payload.Started?
    requires OpenStarts(es[..i + 1]) == [es[i]] && es[i].after == UNKNOWN
    ensures es[i + 1].payload.Finished?
  {
    AppendableAt(es, i + 1);
    assert OwnFinishAt(es, i + 1);
  }

  lemma FinishClosesTheOpenOne(es: seq<Event>, i: nat)
    requires LogOk(es) && i + 1 < |es| && es[i + 1].payload.Finished? && OpenStarts(es[..i + 1]) == [es[i]]
    requires es[i].payload.Started?
    ensures es[i + 1].payload.attempt == es[i].payload.attempt
  {
    var pre, a := es[..i + 1], es[i + 1].payload.attempt;
    PrefixOk(es, i + 1);
    AppendableAt(es, i + 1);
    var k :| 0 <= k < |pre| && SoleStart(pre, a, k);
    forall j | 0 <= j < |pre| && pre[j].payload.Finished? ensures pre[j].payload.attempt != a {
      assert !Names(pre[j], a);
    }
    UnfinishedIsOpen(pre, k);
  }

  /** ... and no attempt is open outside UNKNOWN. */
  lemma NothingOpenOutsideUnknown(es: seq<Event>)
    requires LogOk(es) && OwnFinish(es) && StateAfter(es) != UNKNOWN
    ensures OpenStarts(es) == []
  {
    var n := |es| - 1;
    if OpenStarts(es) != [] {
      var i := OpenIsSole(es, OpenStarts(es)[0]);
      AppendableAt(es, i);
      if i < n {
        StartThenOwnFinish(es, i);
        assert Names(es[i + 1], es[i].payload.attempt);
      }
    }
  }

  /** ... every finish directly follows its own start ... */
  lemma FinishFollowsOwnStart(es: seq<Event>, j: nat)
    requires LogOk(es) && OwnFinish(es) && j < |es| && es[j].payload.Finished?
    ensures j > 0 && es[j - 1].payload.Started? && es[j - 1].payload.attempt == es[j].payload.attempt
  {
    var k := FinishHasStart(es, j);
    StartThenOwnFinish(es, k);
    FinishedOnce(es, k + 1, j);
  }

  /** ... and a confirmed state ends the log. */
  lemma ConfirmedEndsTheLog(es: seq<Event>, i: nat)
    requires LogOk(es) && OwnFinish(es) && i < |es| && es[i].after in {CONFIRMED_SUCCEEDED, CONFIRMED_NOT_APPLIED}
    ensures i + 1 == |es|
  {
    if i + 1 < |es| {
      ConfirmedIsFinal(es, i, i + 1);
      FinishFollowsOwnStart(es, i + 1);
      AppendableAt(es, i);
    }
  }
}
