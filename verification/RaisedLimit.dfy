/** A life in which a raised backup limit makes a log unreadable: two crashes in the middle of a prune
    leave a gap before the anchor, and a larger limit moves the anchor back over it. */
module RaisedLimit {
  import opened Basics
  import opened AuditChain
  import opened JsonlLog
  import opened JsonlSafety
  import opened JsonlSteps
  import opened JsonlLimits
  import opened JsonlRuns
  import JsonlSink

  /** Every line counts as one byte. */
  function Unit(h: Hash, genesis: Digest): Env {
    Env(h, genesis, (e: Entry) => 1)
  }

  /** The entries of the same body written again and again. */
  function Repeated(env: Env, x: Body, n: nat): (all: seq<Entry>)
    ensures |all| == n
  {
    if n == 0 then [] else var all := Repeated(env, x, n - 1); all + [NextEntry(env, all, x)]
  }

  lemma {:induction false} RepeatedAt(env: Env, x: Body, n: nat, k: nat)
    requires k < n
    ensures NextEntry(env, Repeated(env, x, n)[..k], x) == Repeated(env, x, n)[k]
  {
    var all := Repeated(env, x, n - 1);
    if k < n - 1 {
      RepeatedAt(env, x, n - 1, k);
      assert Repeated(env, x, n)[..k] == all[..k];
    } else {
      assert Repeated(env, x, n)[..k] == all;
    }
  }

  // ---------------------------------------------------------------- single writes, computed

  /** The newest line is recorded. */
  predicate IsSettled(env: Env, log: Log) {
    && log.files.state.Some? && log.all != []
    && log.files.state == Some(Recorded(log.files.state.value, log.all, env.genesis))
  }

  /** A write that does not rotate and gets through. */
  lemma PlainWrite(env: Env, log: Log, x: Body, ops: nat)
    requires IsSettled(env, log) && !Rotates(env, log, x) && ops == AppendCost(log.files)
    ensures var e := NextEntry(env, log.all, x);
            && WriteAnswer(env, log, x, ops).Written?
            && WriteStep(env, log, x, ops) ==
                 log.(all := log.all + [e],
                      files := Files(log.files.backups, Some(Lines(log.files.active) + [e]),
                                     Some(Recorded(log.files.state.value, log.all + [e], env.genesis))))
  {
  }

  /** A write that rotates and gets as far as some unlinks. */
  lemma CutWrite(env: Env, log: Log, x: Body, ops: nat, b: Backups)
    requires IsSettled(env, log) && Rotates(env, log, x) && b == Rotated(log.files.backups, log.files.active.value)
    requires AnchorCost(log.files) <= ops < AnchorCost(log.files) + |Beyond(b, log.limit)|
    ensures WriteAnswer(env, log, x, ops).WriteCrashed?
    ensures WriteStep(env, log, x, ops) ==
              log.(files := AnchorStep(log.files.state.value, b, log.limit, ops - AnchorCost(log.files)))
  {
  }

  /** A write that rotates with nothing to unlink and gets through. */
  lemma WholeWrite(env: Env, log: Log, x: Body, ops: nat, b: Backups)
    requires IsSettled(env, log) && Rotates(env, log, x) && b == Rotated(log.files.backups, log.files.active.value)
    requires Beyond(b, log.limit) == {} && ops == AnchorCost(log.files) + 3
    ensures var e := NextEntry(env, log.all, x);
            && WriteAnswer(env, log, x, ops).Written?
            && WriteStep(env, log, x, ops) ==
                 log.(all := log.all + [e],
                      files := Files(b, Some([e]), Some(Recorded(Anchored(log.files.state.value, b, log.limit),
                                                                 log.all + [e], env.genesis))))
  {
    assert [] + [NextEntry(env, log.all, x)] == [NextEntry(env, log.all, x)];
  }

  lemma RotatedIs(b: Backups, active: Segment, c: Backups)
    requires 0 !in b && 1 in c && c[1] == active
    requires forall j | j in b :: j + 1 in c && c[j + 1] == b[j]
    requires forall j | j in c :: j == 1 || (j >= 1 && j - 1 in b)
    ensures Rotated(b, active) == c
  {
    var r := Rotated(b, active);
    forall j: nat ensures (j in r <==> j in c) && (j in c ==> r[j] == c[j]) {
      ShiftedAt(b, b.Keys, |b.Keys|, j);
    }
  }

  // ---------------------------------------------------------------- the stages of the life

  /** The log after `n` appends, with the anchor at `first`. */
  function LogAt(env: Env, all: seq<Entry>, n: nat, b: Backups, active: Option<Segment>, first: nat, limit: nat): Log
    requires first < n <= |all|
  {
    var st := State(first, HashBefore(all, first, env.genesis), n - 1, all[n - 1].hash);
    Log(Files(b, active, Some(st)), all[..n], Some(limit), Some(1))
  }

  /** Each entry continues those before it, and a line fills a segment. */
  ghost predicate IsScript(env: Env, x: Body, all: seq<Entry>) {
    (forall e :: env.width(e) == 1) && forall n :: Continues(env, x, all, n)
  }

  predicate Continues(env: Env, x: Body, all: seq<Entry>, n: int) {
    0 <= n < |all| ==> NextEntry(env, all[..n], x) == all[n]
  }

  lemma NextOfScript(env: Env, x: Body, all: seq<Entry>, n: nat)
    requires IsScript(env, x, all) && n < |all|
    ensures NextEntry(env, all[..n], x) == all[n] && all[..n] + [all[n]] == all[..n + 1]
    ensures HashBefore(all[..n + 1], n + 1, env.genesis) == all[n].hash
    ensures all[n].sequence == n && all[n].prev == HashBefore(all, n, env.genesis)
  {
    assert Continues(env, x, all, n);
  }

  lemma ScriptIs(h: Hash, genesis: Digest, x: Body, n: nat)
    ensures IsScript(Unit(h, genesis), x, Repeated(Unit(h, genesis), x, n))
  {
    var env := Unit(h, genesis);
    forall k ensures Continues(env, x, Repeated(env, x, n), k) {
      if 0 <= k < n {
        RepeatedAt(env, x, n, k);
      }
    }
  }

  /** A write onto a log without an active file. */
  lemma AppendsTo(env: Env, x: Body, all: seq<Entry>, n: nat, b: Backups, first: nat, limit: nat)
    requires IsScript(env, x, all) && first < n < |all|
    ensures var log := LogAt(env, all, n, b, None, first, limit);
            && WriteStep(env, log, x, 3) == LogAt(env, all, n + 1, b, Some([all[n]]), first, limit)
            && WriteAnswer(env, log, x, 3).Written?
  {
    var log := LogAt(env, all, n, b, None, first, limit);
    PlainWrite(env, log, x, 3);
    NextOfScript(env, x, all, n);
    assert [] + [all[n]] == [all[n]];
  }

  lemma AnchorsAt(env: Env, x: Body, all: seq<Entry>, st: State, c: Backups, limit: nat, a: nat)
    requires IsScript(env, x, all) && a < |all|
    requires Young(c, None, limit) != [] && Young(c, None, limit)[0] == all[a]
    ensures Anchored(st, c, Some(limit)) == st.(first := a, firstPrev := HashBefore(all, a, env.genesis))
  {
    NextOfScript(env, x, all, a);
  }

  /** A write onto a log with a full active file that is cut short after some unlinks. */
  lemma CutsAt(env: Env, x: Body, all: seq<Entry>, n: nat, b: Backups, first: nat, limit: nat, c: Backups, unlinks: nat, a: nat)
    requires IsScript(env, x, all) && first < n < |all| && a < n
    requires c == Rotated(b, [all[n - 1]]) && unlinks < |Beyond(c, Some(limit))|
    requires Young(c, None, limit) != [] && Young(c, None, limit)[0] == all[a]
    ensures var log, ops := LogAt(env, all, n, b, Some([all[n - 1]]), first, limit), |b.Keys| + 2 + unlinks;
            && WriteStep(env, log, x, ops) == LogAt(env, all, n, Pruned(c, Some(limit), unlinks), None, a, limit)
            && WriteAnswer(env, log, x, ops).WriteCrashed?
  {
    var log, ops := LogAt(env, all, n, b, Some([all[n - 1]]), first, limit), |b.Keys| + 2 + unlinks;
    OneLine(env, all[n - 1]);
    CutWrite(env, log, x, ops, c);
    AnchorsAt(env, x, all, log.files.state.value, c, limit, a);
  }

  /** A write onto a log with a full active file that gets through, with nothing to unlink. */
  lemma RotatesTo(env: Env, x: Body, all: seq<Entry>, n: nat, b: Backups, first: nat, limit: nat, c: Backups, a: nat)
    requires IsScript(env, x, all) && first < n < |all| && a < n
    requires c == Rotated(b, [all[n - 1]]) && Beyond(c, Some(limit)) == {}
    requires Young(c, None, limit) != [] && Young(c, None, limit)[0] == all[a]
    ensures var log, ops := LogAt(env, all, n, b, Some([all[n - 1]]), first, limit), |b.Keys| + 5;
            && WriteStep(env, log, x, ops) == LogAt(env, all, n + 1, c, Some([all[n]]), a, limit)
            && WriteAnswer(env, log, x, ops).Written?
  {
    var log, ops := LogAt(env, all, n, b, Some([all[n - 1]]), first, limit), |b.Keys| + 5;
    OneLine(env, all[n - 1]);
    WholeWrite(env, log, x, ops, c);
    AnchorsAt(env, x, all, log.files.state.value, c, limit, a);
    NextOfScript(env, x, all, n);
  }

  lemma OneLine(env: Env, e: Entry)
    ensures Size(env.width, [e]) == env.width(e)
  {
    assert [e][..0] == [];
  }

  // ---------------------------------------------------------------- the life

  /** Six calls under a limit of one, two of which crash in a prune. */
  function CallsUnderOne(x: Body): seq<Call> {
    [OpenCall(Some(1), Some(1)), WriteCall(x, 3), WriteCall(x, 5), WriteCall(x, 3), WriteCall(x, 3), WriteCall(x, 5)]
  }

  /** Three more under a limit of four. */
  function CallsUnderFour(x: Body): seq<Call> {
    [OpenCall(Some(4), Some(1)), WriteCall(x, 3), WriteCall(x, 7)]
  }

  /** Some calls from the empty directory lead to a log. */
  ghost predicate Reaches(env: Env, calls: seq<Call>, log: Log) {
    exists run :: IsLife(env, run) && run.calls == calls && run.logs[|calls|] == log
  }

  lemma ReachesNext(env: Env, calls: seq<Call>, log: Log, call: Call, next: Log)
    requires Reaches(env, calls, log) && next == Step(env, log, call)
    ensures Reaches(env, calls + [call], next)
  {
    var past :| IsLife(env, past) && past.calls == calls && past.logs[|calls|] == log;
    var run := Extended(env, past, call);
    assert run.logs[|calls + [call]|] == next;
  }

  lemma ReachedIsOk(env: Env, calls: seq<Call>, log: Log)
    requires Reaches(env, calls, log)
    ensures LogOk(env, log)
  {
    var run :| IsLife(env, run) && run.calls == calls && run.logs[|calls|] == log;
    LifeKeeps(env, run, |calls|);
  }

  lemma ReachesEmpty(env: Env)
    ensures Reaches(env, [], EMPTY)
  {
    var run := Run([], [], [EMPTY]);
    assert IsLife(env, run) && run.logs[0] == EMPTY;
  }

  lemma NewestIsYoung(c: Backups)
    requires 0 !in c && 1 in c
    ensures Young(c, None, 1) == c[1]
  {
    assert Older(c, 0) == [] && Older(c, 1) == c[1] + [];
  }

  lemma OldestIsFirst(c: Backups, n: nat)
    requires n >= 1 && n in c && c[n] != []
    ensures Young(c, None, n) != [] && Young(c, None, n)[0] == c[n][0]
  {
    assert Older(c, n) == c[n] + Older(c, n - 1);
  }

  lemma OneSegment(s0: Segment)
    ensures var b, c: Backups := map[], map[1 := s0];
            Rotated(b, s0) == c && |b.Keys| == 0 && Beyond(c, Some(1)) == {} && Young(c, None, 1) == s0
  {
    var b, c: Backups := map[], map[1 := s0];
    RotatedIs(b, s0, c);
    NewestIsYoung(c);
  }

  /** The first write and the first rotation. */
  lemma FirstWrites(env: Env, x: Body, all: seq<Entry>)
    requires IsScript(env, x, all) && |all| == 5
    ensures Reaches(env, CallsUnderOne(x)[..3], LogAt(env, all, 2, map[1 := [all[0]]], Some([all[1]]), 0, 1))
  {
    var calls, ready := CallsUnderOne(x), EMPTY.(limit := Some(1), maxBytes := Some(1));
    ReachesEmpty(env);
    ReachesNext(env, [], EMPTY, calls[0], ready);
    assert [] + [calls[0]] == calls[..1] && calls[..1] + [calls[1]] == calls[..2] && calls[..2] + [calls[2]] == calls[..3];
    var once := LogAt(env, all, 1, map[], Some([all[0]]), 0, 1);
    FirstWrite(env, x, all);
    ReachesNext(env, calls[..1], ready, calls[1], once);
    FirstRotation(env, x, all);
    ReachesNext(env, calls[..2], once, calls[2], LogAt(env, all, 2, map[1 := [all[0]]], Some([all[1]]), 0, 1));
  }

  lemma FirstRotation(env: Env, x: Body, all: seq<Entry>)
    requires IsScript(env, x, all) && |all| == 5
    ensures var log := LogAt(env, all, 1, map[], Some([all[0]]), 0, 1);
            && WriteStep(env, log, x, 5) == LogAt(env, all, 2, map[1 := [all[0]]], Some([all[1]]), 0, 1)
            && WriteAnswer(env, log, x, 5).Written?
  {
    OneSegment([all[0]]);
    RotatesTo(env, x, all, 1, map[], 0, 1, map[1 := [all[0]]], 0);
  }

  lemma FirstWrite(env: Env, x: Body, all: seq<Entry>)
    requires IsScript(env, x, all) && |all| == 5
    ensures var log := EMPTY.(limit := Some(1), maxBytes := Some(1));
            && WriteStep(env, log, x, 3) == LogAt(env, all, 1, map[], Some([all[0]]), 0, 1)
            && WriteAnswer(env, log, x, 3).Written?
  {
    NextOfScript(env, x, all, 0);
    assert all[..0] == [] && [] + [all[0]] == [all[0]];
  }

  /** A crash before the first unlink, one write, and a crash after the first of two unlinks. */
  lemma TwoCrashes(env: Env, x: Body, all: seq<Entry>)
    requires IsScript(env, x, all) && |all| == 5
    ensures Reaches(env, CallsUnderOne(x), LogAt(env, all, 3, map[1 := [all[2]], 3 := [all[0]]], None, 2, 1))
  {
    var calls := CallsUnderOne(x);
    var b, c := map[1 := [all[0]]], map[1 := [all[1]], 2 := [all[0]]];
    assert calls[..3] + [calls[3]] == calls[..4] && calls[..4] + [calls[4]] == calls[..5] && calls[..5] + [calls[5]] == calls;
    FirstWrites(env, x, all);
    CrashBeforeUnlink(env, x, all);
    ReachesNext(env, calls[..3], LogAt(env, all, 2, b, Some([all[1]]), 0, 1), calls[3], LogAt(env, all, 2, c, None, 1, 1));
    AppendsTo(env, x, all, 2, c, 1, 1);
    ReachesNext(env, calls[..4], LogAt(env, all, 2, c, None, 1, 1), calls[4], LogAt(env, all, 3, c, Some([all[2]]), 1, 1));
    CrashBetweenUnlinks(env, x, all);
    ReachesNext(env, calls[..5], LogAt(env, all, 3, c, Some([all[2]]), 1, 1), calls[5],
                LogAt(env, all, 3, map[1 := [all[2]], 3 := [all[0]]], None, 2, 1));
  }

  lemma TwoSegments(s0: Segment, s1: Segment)
    ensures var b, c: Backups := map[1 := s0], map[1 := s1, 2 := s0];
            Rotated(b, s1) == c && |b.Keys| == 1 && |Beyond(c, Some(1))| == 1 && Young(c, None, 1) == s1
  {
    var b, c: Backups := map[1 := s0], map[1 := s1, 2 := s0];
    RotatedIs(b, s1, c);
    NewestIsYoung(c);
    assert Beyond(c, Some(1)) == {2} && b.Keys == {1};
  }

  lemma CrashBeforeUnlink(env: Env, x: Body, all: seq<Entry>)
    requires IsScript(env, x, all) && |all| == 5
    ensures var log := LogAt(env, all, 2, map[1 := [all[0]]], Some([all[1]]), 0, 1);
            && WriteStep(env, log, x, 3) == LogAt(env, all, 2, map[1 := [all[1]], 2 := [all[0]]], None, 1, 1)
            && WriteAnswer(env, log, x, 3).WriteCrashed?
  {
    TwoSegments([all[0]], [all[1]]);
    CutsAt(env, x, all, 2, map[1 := [all[0]]], 0, 1, map[1 := [all[1]], 2 := [all[0]]], 0, 1);
  }

  lemma ThreeSegments(s0: Segment, s1: Segment, s2: Segment)
    ensures var b, c: Backups := map[1 := s1, 2 := s0], map[1 := s2, 2 := s1, 3 := s0];
            Rotated(b, s2) == c && |b.Keys| == 2 && Young(c, None, 1) == s2
  {
    var b, c: Backups := map[1 := s1, 2 := s0], map[1 := s2, 2 := s1, 3 := s0];
    RotatedIs(b, s2, c);
    NewestIsYoung(c);
    assert b.Keys == {1, 2};
  }

  lemma FirstUnlink(s0: Segment, s1: Segment, s2: Segment)
    ensures var c: Backups := map[1 := s2, 2 := s1, 3 := s0];
            |Beyond(c, Some(1))| == 2 && Pruned(c, Some(1), 1) == map[1 := s2, 3 := s0]
  {
    var c: Backups := map[1 := s2, 2 := s1, 3 := s0];
    assert Beyond(c, Some(1)) == {2, 3};
    assert Pruned(c, Some(1), 1) == c - {2};
  }

  lemma CrashBetweenUnlinks(env: Env, x: Body, all: seq<Entry>)
    requires IsScript(env, x, all) && |all| == 5
    ensures var log := LogAt(env, all, 3, map[1 := [all[1]], 2 := [all[0]]], Some([all[2]]), 1, 1);
            && WriteStep(env, log, x, 5) == LogAt(env, all, 3, map[1 := [all[2]], 3 := [all[0]]], None, 2, 1)
            && WriteAnswer(env, log, x, 5).WriteCrashed?
  {
    ThreeSegments([all[0]], [all[1]], [all[2]]);
    FirstUnlink([all[0]], [all[1]], [all[2]]);
    CutsAt(env, x, all, 3, map[1 := [all[1]], 2 := [all[0]]], 1, 1,
           map[1 := [all[2]], 2 := [all[1]], 3 := [all[0]]], 1, 2);
  }

  // ---------------------------------------------------------------- the raised limit

  lemma ThirdRotation(s0: Segment, s2: Segment, s3: Segment)
    requires s0 != []
    ensures var b, c: Backups := map[1 := s2, 3 := s0], map[1 := s3, 2 := s2, 4 := s0];
            && Rotated(b, s3) == c && |b.Keys| == 2 && Beyond(c, Some(4)) == {}
            && Young(c, None, 4) != [] && Young(c, None, 4)[0] == s0[0]
  {
    var b, c: Backups := map[1 := s2, 3 := s0], map[1 := s3, 2 := s2, 4 := s0];
    RotatedIs(b, s3, c);
    OldestIsFirst(c, 4);
    assert b.Keys == {1, 3};
  }

  /** The raised limit moves the anchor back to the first event. */
  lemma Reanchored(env: Env, x: Body, all: seq<Entry>)
    requires IsScript(env, x, all) && |all| == 5
    ensures var log := LogAt(env, all, 4, map[1 := [all[2]], 3 := [all[0]]], Some([all[3]]), 2, 4);
            && WriteStep(env, log, x, 7) == LogAt(env, all, 5, map[1 := [all[3]], 2 := [all[2]], 4 := [all[0]]], Some([all[4]]), 0, 4)
            && WriteAnswer(env, log, x, 7).Written?
  {
    ThirdRotation([all[0]], [all[2]], [all[3]]);
    RotatesTo(env, x, all, 4, map[1 := [all[2]], 3 := [all[0]]], 2, 4,
              map[1 := [all[3]], 2 := [all[2]], 4 := [all[0]]], 0);
  }

  lemma UnderFour(env: Env, x: Body, all: seq<Entry>)
    requires IsScript(env, x, all) && |all| == 5
    ensures var gap := map[1 := [all[2]], 3 := [all[0]]];
            Reaches(env, CallsUnderOne(x) + CallsUnderFour(x)[..2], LogAt(env, all, 4, gap, Some([all[3]]), 2, 4))
    ensures Reaches(env, CallsUnderOne(x) + CallsUnderFour(x),
                    LogAt(env, all, 5, map[1 := [all[3]], 2 := [all[2]], 4 := [all[0]]], Some([all[4]]), 0, 4))
  {
    var before, calls, gap := CallsUnderOne(x), CallsUnderFour(x), map[1 := [all[2]], 3 := [all[0]]];
    assert before + [calls[0]] + [calls[1]] == before + calls[..2] && before + calls[..2] + [calls[2]] == before + calls;
    TwoCrashes(env, x, all);
    ReachesNext(env, before, LogAt(env, all, 3, gap, None, 2, 1), calls[0], LogAt(env, all, 3, gap, None, 2, 4));
    AppendsTo(env, x, all, 3, gap, 2, 4);
    ReachesNext(env, before + [calls[0]], LogAt(env, all, 3, gap, None, 2, 4), calls[1],
                LogAt(env, all, 4, gap, Some([all[3]]), 2, 4));
    Reanchored(env, x, all);
    ReachesNext(env, before + calls[..2], LogAt(env, all, 4, gap, Some([all[3]]), 2, 4), calls[2],
                LogAt(env, all, 5, map[1 := [all[3]], 2 := [all[2]], 4 := [all[0]]], Some([all[4]]), 0, 4));
  }

  /** The second event is missing within the new limit. */
  lemma GapIsWithinReach(env: Env, x: Body, all: seq<Entry>)
    requires IsScript(env, x, all) && |all| == 5
    ensures !IsWhole(LogAt(env, all, 4, map[1 := [all[2]], 3 := [all[0]]], Some([all[3]]), 2, 4), 3)
  {
    var gap: Backups := map[1 := [all[2]], 3 := [all[0]]];
    assert Older(gap, 0) == [] && Older(gap, 1) == [all[2]] + [] && Older(gap, 2) == [all[2]];
    assert Older(gap, 3) == [all[0]] + [all[2]];
    var y := Young(gap, Some([all[3]]), 3);
    assert y == [all[0], all[2], all[3]];
    NextOfScript(env, x, all, 0);
    NextOfScript(env, x, all, 1);
    assert !SameFromEnd(y, all[..4], 3);
  }

  /** After the next rotation it is not. */
  lemma GapIsOutOfReach(env: Env, x: Body, all: seq<Entry>)
    requires IsScript(env, x, all) && |all| == 5
    ensures IsWhole(LogAt(env, all, 5, map[1 := [all[3]], 2 := [all[2]], 4 := [all[0]]], Some([all[4]]), 0, 4), 3)
  {
    var b: Backups := map[1 := [all[3]], 2 := [all[2]], 4 := [all[0]]];
    assert Older(b, 0) == [] && Older(b, 1) == [all[3]] + [] && Older(b, 2) == [all[2]] + [all[3]];
    assert Older(b, 3) == [all[2], all[3]];
    var y := Young(b, Some([all[4]]), 3);
    assert y == [all[2], all[3], all[4]] == all[..5][2..];
    SuffixIs(y, all[..5]);
  }

  /** Nine calls, two of them crashes under a limit of one and the last three under a limit of four, leave
      a log that every read refuses although writes still succeed.  The next write that rotates makes it
      readable again; but a crash between the append and the state file before that loses it for good. */
  lemma RaisedLimitBreaks(h: Hash, genesis: Digest, x: Body) returns (log: Log)
    ensures var env := Unit(h, genesis);
            && Reaches(env, CallsUnderOne(x) + CallsUnderFour(x), log)
            && LogOk(env, log) && !CanRead(log) && !Lost(log)
            && WriteAnswer(env, log, x, WriteCost(env, log, x)).Written?
            && CanRead(WriteStep(env, log, x, WriteCost(env, log, x)))
            && Lost(WriteStep(env, OpenStep(log, None, None), x, 1))
  {
    var env := Unit(h, genesis);
    var all := Repeated(env, x, 5);
    ScriptIs(h, genesis, x, 5);
    log := LogAt(env, all, 5, map[1 := [all[3]], 2 := [all[2]], 4 := [all[0]]], Some([all[4]]), 0, 4);
    UnderFour(env, x, all);
    ReachedIsOk(env, CallsUnderOne(x) + CallsUnderFour(x), log);
    BreaksReading(env, x, all);
    MendsReading(env, x, all);
    LosesLog(env, log, x);
  }

  lemma DecidesReading(env: Env, calls: seq<Call>, log: Log, x: Body, ops: nat, next: Log)
    requires Reaches(env, calls, log) && log.limit == Some(4) && Rotates(env, log, x)
    requires WriteAnswer(env, log, x, ops).Written? && next == WriteStep(env, log, x, ops)
    ensures CanRead(next) <==> IsWhole(log, 3)
  {
    ReachedIsOk(env, calls, log);
    RotationDecides(env, log, x, ops, 4, next);
  }

  /** A log with a full active file rotates. */
  lemma FullRotates(env: Env, x: Body, all: seq<Entry>, n: nat, b: Backups, first: nat, limit: nat)
    requires IsScript(env, x, all) && first < n <= |all|
    ensures Rotates(env, LogAt(env, all, n, b, Some([all[n - 1]]), first, limit), x)
  {
    OneLine(env, all[n - 1]);
  }

  lemma BreaksReading(env: Env, x: Body, all: seq<Entry>)
    requires IsScript(env, x, all) && |all| == 5
    ensures var log := LogAt(env, all, 5, map[1 := [all[3]], 2 := [all[2]], 4 := [all[0]]], Some([all[4]]), 0, 4);
            !CanRead(log) && !Lost(log)
  {
    var gap := map[1 := [all[2]], 3 := [all[0]]];
    var before := LogAt(env, all, 4, gap, Some([all[3]]), 2, 4);
    var log := LogAt(env, all, 5, map[1 := [all[3]], 2 := [all[2]], 4 := [all[0]]], Some([all[4]]), 0, 4);
    UnderFour(env, x, all);
    Reanchored(env, x, all);
    FullRotates(env, x, all, 4, gap, 2, 4);
    DecidesReading(env, CallsUnderOne(x) + CallsUnderFour(x)[..2], before, x, 7, log);
    GapIsWithinReach(env, x, all);
  }

  lemma MendsReading(env: Env, x: Body, all: seq<Entry>)
    requires IsScript(env, x, all) && |all| == 5
    ensures var log := LogAt(env, all, 5, map[1 := [all[3]], 2 := [all[2]], 4 := [all[0]]], Some([all[4]]), 0, 4);
            !Lost(log) ==> CanRead(WriteStep(env, log, x, WriteCost(env, log, x)))
  {
    var b := map[1 := [all[3]], 2 := [all[2]], 4 := [all[0]]];
    var log := LogAt(env, all, 5, b, Some([all[4]]), 0, 4);
    if !Lost(log) {
      UnderFour(env, x, all);
      FullRotates(env, x, all, 5, b, 0, 4);
      DecidesReading(env, CallsUnderOne(x) + CallsUnderFour(x), log, x, WriteCost(env, log, x),
                     WriteStep(env, log, x, WriteCost(env, log, x)));
      GapIsOutOfReach(env, x, all);
    }
  }

  /** A crash between the append and the state file of a log that cannot be read. */
  lemma LosesLog(env: Env, log: Log, x: Body)
    requires LogOk(env, log) && !CanRead(log) && !Lost(log) && log.files.active.Some?
    ensures Lost(WriteStep(env, OpenStep(log, None, None), x, 1))
  {
    var freed := OpenStep(log, None, None);
    WriteKeeps(env, freed, x, 1);
    LostAfterIff(env, freed, x, 1);
    WriteUnfolds(env, freed, x, 1);
  }

  /** The same calls on the object end in a refused read. */
  method RefusedRead(h: Hash, genesis: Digest, x: Body) returns (reply: ReadReply)
    ensures reply.ReadRefused?
  {
    var env, calls := Unit(h, genesis), CallsUnderOne(x) + CallsUnderFour(x);
    ghost var log := RaisedLimitBreaks(h, genesis, x);
    var _, r, run := JsonlSink.Lifetime(env, calls);
    LeadsTo(env, calls, log, run);
    reply := r;
  }

  lemma LeadsTo(env: Env, calls: seq<Call>, log: Log, run: Run)
    requires Reaches(env, calls, log) && IsLife(env, run) && run.calls == calls
    ensures run.logs[|calls|] == log
  {
    var other :| IsLife(env, other) && other.calls == calls && other.logs[|calls|] == log;
    LivesAgree(env, run, other, |calls|);
  }
}
