/** What a write does to the wholeness of a JSONL log, to its anchor, and to the hope of reading it again,
    under whatever backup limit it is made. */
module JsonlLimits {
  import opened Basics
  import opened AuditChain
  import opened JsonlLog
  import opened JsonlSafety
  import opened JsonlSteps

  // ---------------------------------------------------------------- wholeness

  lemma AppendKeepsWhole(env: Env, f: Files, all: seq<Entry>, e: Entry, ops: nat, n: nat)
    ensures var g, all' := AppendStep(env, f, e, ops), if AppendsLine(f, ops) then all + [e] else all;
            Whole(g.backups, g.active, n, all') <==> Whole(f.backups, f.active, n, all)
  {
    WholeGrows(f.backups, f.active, n, all, e);
  }

  lemma RotateKeepsWhole(f: Files, limit: Option<nat>, all: seq<Entry>, ops: nat, n: nat)
    requires f.state.Some? && f.active.Some? && NoEmptyBackup(f.backups) && Within(n, limit)
    requires Whole(f.backups, f.active, n, all)
    ensures var g := RotateStep(f, limit, ops);
            Whole(g.backups, g.active, n, all)
  {
    YoungOfStep(f, limit, ops, n);
    var g := RotateStep(f, limit, ops);
    SuffixOfSuffix(Young(g.backups, g.active, n), Young(f.backups, f.active, n), all);
  }

  lemma AdvanceKeepsWhole(env: Env, f: Files, limit: Option<nat>, all: seq<Entry>, rotates: bool, e: Entry, ops: nat, n: nat,
                          g: Files, all': seq<Entry>)
    requires NoEmptyBackup(f.backups) && (rotates ==> f.state.Some? && f.active.Some?) && Within(n, limit)
    requires Whole(f.backups, f.active, n, all)
    requires g == Advance(env, f, limit, rotates, e, ops)
    requires all' == if Appends(f, limit, rotates, ops) then all + [e] else all
    ensures Whole(g.backups, g.active, n, all')
  {
    if !rotates {
      AppendKeepsWhole(env, f, all, e, ops, n);
    } else {
      var cost := RotationCost(f, limit);
      if ops < cost {
        RotateKeepsWhole(f, limit, all, ops, n);
      } else {
        RotateKeepsWhole(f, limit, all, cost, n);
        AppendKeepsWhole(env, RotateStep(f, limit, cost), all, e, ops - cost, n);
      }
    }
  }

  /** A write never tears a hole below the limit it is made under. */
  lemma WriteKeepsWhole(env: Env, log: Log, body: Body, ops: nat, n: nat)
    requires LogOk(env, log) && Within(n, log.limit) && IsWhole(log, n)
    ensures IsWhole(WriteStep(env, log, body, ops), n)
  {
    if !Lost(log) && ops >= Owed(log) {
      WriteUnfolds(env, log, body, ops);
      var next := WriteStep(env, log, body, ops);
      AdvanceKeepsWhole(env, Settled(env, log), log.limit, log.all, Rotates(env, log, body),
                        NextEntry(env, log.all, body), ops - Owed(log), n, next.files, next.all);
    }
  }

  /** A write that rotates and succeeds moves what is whole one index up. */
  lemma RotationLifts(env: Env, log: Log, body: Body, ops: nat, n: nat)
    requires LogOk(env, log) && WriteAnswer(env, log, body, ops).Written? && Rotates(env, log, body) && Within(n + 1, log.limit)
    ensures IsWhole(WriteStep(env, log, body, ops), n + 1) <==> IsWhole(log, n)
  {
    var f, e := Settled(env, log), NextEntry(env, log.all, body);
    WriteUnfolds(env, log, body, ops);
    var cost := RotationCost(f, log.limit);
    YoungOfRotation(f, log.limit, n);
    AppendKeepsWhole(env, RotateStep(f, log.limit, cost), log.all, e, ops - Owed(log) - cost, n + 1);
  }

  lemma WholeBelow(log: Log, n: nat, m: nat)
    requires n <= m && IsWhole(log, m)
    ensures IsWhole(log, n)
  {
    var f := log.files;
    OlderBelow(f.backups, n, m);
    SuffixOfLines(Older(f.backups, n), Older(f.backups, m), Lines(f.active));
    SuffixOfSuffix(Young(f.backups, f.active, n), Young(f.backups, f.active, m), log.all);
  }

  /** No line is missing between the oldest one on disk and the newest. */
  ghost predicate Gapless(log: Log) {
    IsSuffix(AllLines(log.files.backups, log.files.active), log.all)
  }

  lemma GaplessIsWhole(log: Log, n: nat)
    requires Gapless(log)
    ensures IsWhole(log, n)
  {
    var f := log.files;
    var older := SplitYoung(f.backups, f.active, n);
    SuffixOfSuffix(Young(f.backups, f.active, n), AllLines(f.backups, f.active), log.all);
  }

  /** After a complete prune the files hold what pruning leaves. */
  lemma LinesOfPruned(b: Backups, limit: Option<nat>)
    ensures IsSuffix(AllLines(Pruned(b, limit, |Beyond(b, limit)|), None), AllLines(b, None))
  {
    PrunedAll(b, limit, |Beyond(b, limit)|);
    var p := b - Beyond(b, limit);
    if limit.None? {
      assert p == b;
    } else {
      var older := SplitYoung(b, None, limit.value);
      OlderAgrees(p, b, limit.value);
      AnyBound(p, limit.value);
    }
  }

  lemma AppendKeepsGapless(b: Backups, active: Option<Segment>, all: seq<Entry>, e: Entry)
    requires IsSuffix(AllLines(b, active), all)
    ensures IsSuffix(AllLines(b, Some(Lines(active) + [e])), all + [e])
  {
    assert AllLines(b, Some(Lines(active) + [e])) == AllLines(b, active) + [e];
    SuffixGrows(AllLines(b, active), all, e);
  }

  lemma RotationKeepsGapless(env: Env, f: Files, limit: Option<nat>, all: seq<Entry>, e: Entry, ops: nat, g: Files)
    requires f.state.Some? && f.active.Some? && f.active.value != [] && NoEmptyBackup(f.backups)
    requires IsSuffix(AllLines(f.backups, f.active), all)
    requires ops >= 3 && g == AppendStep(env, RotateStep(f, limit, RotationCost(f, limit)), e, ops)
    ensures IsSuffix(AllLines(g.backups, g.active), all + [e])
  {
    var b := Rotated(f.backups, f.active.value);
    var p := Pruned(b, limit, |Beyond(b, limit)|);
    RotatedIsSound(f.backups, f.active.value);
    LinesOfPruned(b, limit);
    SuffixOfSuffix(AllLines(p, None), AllLines(b, None), all);
    AppendKeepsGapless(p, None, all, e);
  }

  /** A write that succeeds leaves a log without gaps without gaps. */
  lemma WriteKeepsGapless(env: Env, log: Log, body: Body, ops: nat)
    requires LogOk(env, log) && WriteAnswer(env, log, body, ops).Written? && Gapless(log)
    ensures Gapless(WriteStep(env, log, body, ops))
  {
    var f, e := Settled(env, log), NextEntry(env, log.all, body);
    WriteUnfolds(env, log, body, ops);
    if Rotates(env, log, body) {
      var left := ops - Owed(log) - RotationCost(f, log.limit);
      RotationKeepsGapless(env, f, log.limit, log.all, e, left, WriteStep(env, log, body, ops).files);
    } else {
      AppendKeepsGapless(f.backups, f.active, log.all, e);
    }
  }

  // ---------------------------------------------------------------- the anchor

  /** The lines within reach of an index are not before the anchor. */
  ghost predicate IsAhead(f: Files, n: nat) {
    f.state.Some? ==> forall e | e in Young(f.backups, f.active, n) :: e.sequence >= f.state.value.first
  }

  lemma InSuffix(x: Segment, y: Segment, e: Entry)
    requires IsSuffix(x, y) && e in x
    ensures e in y
  {
    var i :| 0 <= i < |x| && x[i] == e;
    assert SameFromEnd(x, y, |x| - i);
    assert y[|y| - |x| + i] == e;
  }

  /** The anchor of a rotation is the first line that pruning leaves, and the others come after it. */
  lemma AnchorIsLowest(b: Backups, st: State, limit: nat, all: seq<Entry>, e: Entry)
    requires PartOf(AllLines(b, None), all) && e in Young(b, None, limit)
    ensures Anchored(st, b, Some(limit)).first <= e.sequence
  {
    var y := Young(b, None, limit);
    var older := SplitYoung(b, None, limit);
    TailIsPart(older, y, all);
    var i :| 0 <= i < |y| && y[i] == e;
    assert InOrder(y, 0, i);
  }

  lemma StaysAhead(f: Files, g: Files, n: nat)
    requires IsAhead(f, n) && f.state.Some? && g.state.Some? && g.state.value.first == f.state.value.first
    requires IsSuffix(Young(g.backups, g.active, n), Young(f.backups, f.active, n))
    ensures IsAhead(g, n)
  {
    forall e | e in Young(g.backups, g.active, n) ensures e in Young(f.backups, f.active, n) {
      InSuffix(Young(g.backups, g.active, n), Young(f.backups, f.active, n), e);
    }
  }

  lemma AnchoredIsAhead(f: Files, b: Backups, limit: nat, n: nat, all: seq<Entry>)
    requires f.state.Some? && PartOf(AllLines(b, None), all) && n <= limit
    ensures forall e | e in Young(b, None, n) :: e.sequence >= Anchored(f.state.value, b, Some(limit)).first
  {
    OlderBelow(b, n, limit);
    SuffixOfLines(Older(b, n), Older(b, limit), []);
    forall e | e in Young(b, None, n) ensures e.sequence >= Anchored(f.state.value, b, Some(limit)).first {
      InSuffix(Young(b, None, n), Young(b, None, limit), e);
      AnchorIsLowest(b, f.state.value, limit, all, e);
    }
  }

  /** The first line that pruning leaves was ahead of the old anchor. */
  lemma AnchoringMovesForward(f: Files, b: Backups, n: nat, all: seq<Entry>)
    requires IsAhead(f, n) && f.state.Some? && PartOf(AllLines(b, None), all)
    requires IsSuffix(Young(b, None, n), Young(f.backups, f.active, n))
    ensures Anchored(f.state.value, b, Some(n)).first >= f.state.value.first
  {
    var y := Young(b, None, n);
    if y != [] {
      InSuffix(y, Young(f.backups, f.active, n), y[0]);
    }
  }

  lemma ReanchoredIsAhead(f: Files, b: Backups, limit: nat, n: nat, unlinks: nat, all: seq<Entry>)
    requires f.state.Some? && HoldsShifted(b, f) && PartOf(AllLines(f.backups, f.active), all)
    requires n <= limit && IsAhead(f, n)
    ensures var g := AnchorStep(f.state.value, b, Some(limit), unlinks);
            IsAhead(g, n) && (n == limit ==> g.state.value.first >= f.state.value.first)
  {
    AnchoredIsAhead(f, b, limit, n, all);
    YoungOfPruned(b, Some(limit), unlinks, n);
    if n == limit {
      assert IsOneUp(b, f, n);
      OlderBelow(b, n, n + 1);
      SuffixOfLines(Older(b, n), Older(b, n + 1), []);
      AnchoringMovesForward(f, b, n, all);
    }
  }

  lemma ReanchoringMovesForward(env: Env, f: Files, limit: nat, n: nat, all: seq<Entry>, ops: nat)
    requires CanRotate(env, f, Some(limit), all) && n <= limit && IsAhead(f, n) && ops >= AnchorCost(f)
    ensures var g := RotateStep(f, Some(limit), ops);
            IsAhead(g, n) && (n == limit ==> g.state.value.first >= f.state.value.first)
  {
    var b := Rotated(f.backups, f.active.value);
    RotatedHolds(f);
    RotateStepIs(f, Some(limit), ops, b);
    ReanchoredIsAhead(f, b, limit, n, ops - AnchorCost(f), all);
  }

  /** However far a rotation gets, what is ahead of the anchor stays ahead; and the anchor does not
      move back when everything the limit allows is ahead of it. */
  lemma RotationMovesForward(env: Env, f: Files, limit: Option<nat>, n: nat, all: seq<Entry>, ops: nat)
    requires CanRotate(env, f, limit, all) && Within(n, limit) && IsAhead(f, n)
    ensures var g := RotateStep(f, limit, ops);
            && IsAhead(g, n) && g.state.Some?
            && (limit.None? ==> g.state.value.first == f.state.value.first)
            && (limit == Some(n) ==> g.state.value.first >= f.state.value.first)
  {
    if limit.None? || ops < AnchorCost(f) {
      YoungOfStep(f, limit, ops, n);
      StaysAhead(f, RotateStep(f, limit, ops), n);
    } else {
      ReanchoringMovesForward(env, f, limit.value, n, all, ops);
    }
  }

  lemma AppendMovesForward(env: Env, f: Files, n: nat, all: seq<Entry>, e: Entry, ops: nat)
    requires IsAhead(f, n) && e.sequence == |all| && (f.state.Some? ==> f.state.value.first <= |all|)
    requires f.state.None? ==> f.backups == map[] && Lines(f.active) == all == []
    ensures var g := AppendStep(env, f, e, ops);
            IsAhead(g, n) && (f.state.Some? ==> g.state.Some? && g.state.value.first == f.state.value.first)
  {
    var g := AppendStep(env, f, e, ops);
    forall d | d in Young(g.backups, g.active, n) ensures d in Young(f.backups, f.active, n) || d == e {
      assert Young(f.backups, Some(Lines(f.active) + [e]), n) == Young(f.backups, f.active, n) + [e];
    }
    if f.state.None? {
      OlderOfNone(n);
    }
  }

  lemma AdvanceMovesForward(env: Env, f: Files, limit: Option<nat>, n: nat, all: seq<Entry>, rotates: bool, e: Entry, ops: nat,
                            g: Files)
    requires Sound(env.h, env.genesis, f, all) && !Orphaned(f) && (rotates ==> CanRotate(env, f, limit, all))
    requires Within(n, limit) && IsAhead(f, n) && e.sequence == |all|
    requires g == Advance(env, f, limit, rotates, e, ops)
    ensures IsAhead(g, n)
    ensures f.state.Some? ==> && g.state.Some?
                              && (limit.None? ==> g.state.value.first == f.state.value.first)
                              && (limit == Some(n) ==> g.state.value.first >= f.state.value.first)
  {
    if !rotates {
      AppendMovesForward(env, f, n, all, e, ops);
    } else if ops < RotationCost(f, limit) {
      RotationMovesForward(env, f, limit, n, all, ops);
    } else {
      var cost := RotationCost(f, limit);
      RotationMovesForward(env, f, limit, n, all, cost);
      RotateKeeps(env, f, limit, all, cost);
      AppendMovesForward(env, RotateStep(f, limit, cost), n, all, e, ops - cost);
    }
  }

  /** What is ahead of the anchor stays ahead.  The anchor moves only forward when everything the limit
      allows is ahead of it, and not at all without a limit. */
  lemma AnchorMovesForward(env: Env, log: Log, body: Body, ops: nat, n: nat)
    requires LogOk(env, log) && Within(n, log.limit) && IsAhead(log.files, n)
    ensures var next := WriteStep(env, log, body, ops);
            && IsAhead(next.files, n)
            && (log.files.state.Some? ==>
                  && next.files.state.Some?
                  && (log.limit.None? ==> next.files.state.value.first == log.files.state.value.first)
                  && (log.limit == Some(n) ==> next.files.state.value.first >= log.files.state.value.first))
  {
    if !Lost(log) && ops >= Owed(log) {
      var next, f := WriteStep(env, log, body, ops), Settled(env, log);
      if log.files.state.Some? {
        SettledKeeps(env, log);
      }
      WriteUnfolds(env, log, body, ops);
      assert IsAhead(f, n);
      AdvanceMovesForward(env, f, log.limit, n, log.all, Rotates(env, log, body), NextEntry(env, log.all, body),
                          ops - Owed(log), next.files);
    }
  }

  // ---------------------------------------------------------------- the end of a log

  /** What a write from a current state leaves to be recorded. */
  lemma AdvanceOwes(env: Env, f: Files, limit: Option<nat>, all: seq<Entry>, rotates: bool, e: Entry, ops: nat,
                    g: Files, all': seq<Entry>)
    requires (if f.state.Some? then f.state.value.last == |all| - 1 else all == []) && (rotates ==> f.state.Some? && f.active.Some?)
    requires e.sequence == |all|
    requires g == Advance(env, f, limit, rotates, e, ops)
    requires all' == if Appends(f, limit, rotates, ops) then all + [e] else all
    ensures var done := ops >= (if rotates then RotationCost(f, limit) + 3 else AppendCost(f));
            && (g.state.None? <==> f.state.None? && !done)
            && (g.state.Some? ==> (g.state.value.last < |all'| - 1 <==> all' != all && !done))
  {
    assert |all + [e]| == |all| + 1;
  }

  /** A log that can still be worked on is lost exactly by a crash that leaves it unreadable with its
      newest line not recorded, or without any state file. */
  lemma LostAfterIff(env: Env, log: Log, body: Body, ops: nat)
    requires LogOk(env, log) && !Lost(log)
    ensures var next := WriteStep(env, log, body, ops);
            Lost(next) <==> && !CanRead(next) && WriteAnswer(env, log, body, ops).WriteCrashed?
                            && (next.all != log.all || next.files.state.None?)
  {
    if ops >= Owed(log) {
      var next, f := WriteStep(env, log, body, ops), Settled(env, log);
      WriteUnfolds(env, log, body, ops);
      AdvanceOwes(env, f, log.limit, log.all, Rotates(env, log, body), NextEntry(env, log.all, body), ops - Owed(log),
                  next.files, next.all);
    }
  }

  // ---------------------------------------------------------------- reading after a write

  /** After a write that succeeds, the log can be read exactly when nothing was missing within the next
      smaller limit, if the write rotated under a limit, and else exactly when it could be read before. */
  lemma WrittenReadsIff(env: Env, log: Log, body: Body, ops: nat)
    requires LogOk(env, log) && WriteAnswer(env, log, body, ops).Written?
    ensures CanRead(WriteStep(env, log, body, ops)) <==>
              if Rotates(env, log, body) && log.limit.Some? then IsWhole(log, log.limit.value - 1) else CanRead(log)
  {
    WriteKeeps(env, log, body, ops);
    ReadsAfterWritten(env, log, body, ops);
  }

  lemma ReadsAfterWritten(env: Env, log: Log, body: Body, ops: nat)
    requires LogOk(env, log) && WriteAnswer(env, log, body, ops).Written?
    ensures ReadsAfter(env, log, body, ops) <==>
              if Rotates(env, log, body) && log.limit.Some? then IsWhole(log, log.limit.value - 1) else CanRead(log)
  {
  }

  /** A rotating write under a limit decides anew whether the log can be read. */
  lemma RotationDecides(env: Env, log: Log, body: Body, ops: nat, n: nat, next: Log)
    requires LogOk(env, log) && log.limit == Some(n) && Rotates(env, log, body)
    requires WriteAnswer(env, log, body, ops).Written? && next == WriteStep(env, log, body, ops)
    ensures n >= 1 && (CanRead(next) <==> IsWhole(log, n - 1))
  {
    WrittenReadsIff(env, log, body, ops);
  }

  // ---------------------------------------------------------------- the size limit

  lemma {:induction false} PruneSpares(b: Backups, limit: Option<nat>, c: nat, k: nat)
    requires k in b && Within(k, limit)
    ensures k in Pruned(b, limit, c) && Pruned(b, limit, c)[k] == b[k]
    decreases c
  {
    if c > 0 && Beyond(b, limit) != {} {
      PruneSpares(b - {Lowest(Beyond(b, limit))}, limit, c - 1, k);
    }
  }

  /** A whole rotation leaves no active file, and its lines in segment 1. */
  lemma RotationEmpties(f: Files, limit: Option<nat>)
    requires f.state.Some? && f.active.Some? && (limit.Some? ==> limit.value >= 1)
    ensures var g := RotateStep(f, limit, RotationCost(f, limit));
            g.active.None? && g.state.Some? && 1 in g.backups && g.backups[1] == f.active.value
  {
    var b := Rotated(f.backups, f.active.value);
    PruneSpares(b, limit, RotationCost(f, limit) - AnchorCost(f), 1);
  }

  /** The line still fits the active file, or starts it. */
  predicate FitsIn(env: Env, log: Log, e: Entry) {
    var size := Size(env.width, Lines(log.files.active));
    log.maxBytes.None? || size == 0 || size + env.width(e) <= log.maxBytes.value
  }

  /** A successful write appends to the active file where the line fits and starts a new one where it
      does not, so that the active file stays within the size limit or is no larger than the line. */
  lemma WrittenFits(env: Env, log: Log, body: Body, ops: nat)
    requires LogOk(env, log) && WriteAnswer(env, log, body, ops) == Written
    ensures var f, g := log.files, WriteStep(env, log, body, ops).files;
            var e := NextEntry(env, log.all, body);
            && g.active.Some?
            && (if FitsIn(env, log, e) then g.active.value == Lines(f.active) + [e] && g.backups == f.backups
                else g.active.value == [e] && 1 in g.backups && g.backups[1] == Lines(f.active))
            && (log.maxBytes.Some? ==>
                  Size(env.width, g.active.value) <= log.maxBytes.value || Size(env.width, g.active.value) == env.width(e))
  {
    var f, e := Settled(env, log), NextEntry(env, log.all, body);
    assert (Lines(f.active) + [e])[..|Lines(f.active)|] == Lines(f.active);
    assert Rotates(env, log, body) <==> !FitsIn(env, log, e);
    if Rotates(env, log, body) {
      RotationEmpties(f, log.limit);
      assert Size(env.width, [e]) == env.width(e);
    }
  }
}
