/** A JSONL log as a value: what each call leaves on disk when it gets through only so many of its
    durable file operations, and what that means for later readers.  The limits may change from call
    to call, as processes with other limits go on with the log. */
module JsonlSteps {
  import opened Basics
  import opened AuditChain
  import opened JsonlLog
  import opened JsonlSafety

  /** What all processes that share a log have in common. */
  datatype Env = Env(h: Hash, genesis: Digest, width: Entry -> nat)

  /** The files, the appends so far, and the limits of the process at work. */
  datatype Log = Log(files: Files, all: seq<Entry>, limit: Option<nat>, maxBytes: Option<nat>)

  datatype WriteReply = Written | WriteRefused | WriteCrashed

  datatype ReadReply = Events(events: seq<Entry>) | ReadRefused | ReadCrashed

  const EMPTY := Log(Files(map[], None, None), [], None, None)

  /** Limits are positive, and only a sink with a size limit may have a backup limit. */
  predicate Allowed(limit: Option<int>, maxBytes: Option<int>) {
    && (maxBytes.Some? ==> maxBytes.value > 0)
    && (limit.Some? ==> limit.value >= 1 && maxBytes.Some?)
  }

  /** Another process goes on with the log, under its own limits. */
  function OpenStep(log: Log, limit: Option<int>, maxBytes: Option<int>): Log {
    if Allowed(limit, maxBytes) then log.(limit := limit, maxBytes := maxBytes) else log
  }

  ghost predicate LogOk(env: Env, log: Log) {
    (log.limit.Some? ==> log.limit.value >= 1) && Sound(env.h, env.genesis, log.files, log.all)
  }

  ghost predicate CanRead(log: Log) {
    Readable(log.files, log.all)
  }

  /** The first write created the active file, and perhaps its line, but never the state file. */
  predicate Orphaned(f: Files) {
    f.state.None? && f.active.Some?
  }

  /** No line is missing among the active file and the segments up to an index. */
  ghost predicate IsWhole(log: Log, n: nat) {
    Whole(log.files.backups, log.files.active, n, log.all)
  }

  /** The state replacements a load owes: one if the newest line is not recorded. */
  function Owed(log: Log): nat {
    if log.files.state.Some? && log.files.state.value.last < |log.all| - 1 then 1 else 0
  }

  /** No call can succeed any more. */
  ghost predicate Lost(log: Log) {
    !CanRead(log) && (log.files.state.None? || Owed(log) == 1)
  }

  /** The entry that continues a log. */
  function NextEntry(env: Env, all: seq<Entry>, body: Body): Entry {
    Prepare(env.h, body, |all|, HashBefore(all, |all|, env.genesis))
  }

  function Size(width: Entry -> nat, s: Segment): nat {
    if s == [] then 0 else Size(width, s[..|s| - 1]) + width(s[|s| - 1])
  }

  predicate ShouldRotate(env: Env, active: Option<Segment>, maxBytes: Option<nat>, e: Entry) {
    && maxBytes.Some?
    && active.Some?
    && Size(env.width, active.value) > 0
    && Size(env.width, active.value) + env.width(e) > maxBytes.value
  }

  // ---------------------------------------------------------------- loading

  /** The files once the newest line is recorded. */
  function Settled(env: Env, log: Log): Files {
    if log.files.state.None? then log.files
    else log.files.(state := Some(Recorded(log.files.state.value, log.all, env.genesis)))
  }

  ghost function ReadStep(env: Env, log: Log, ops: nat): Log {
    if CanRead(log) && ops >= Owed(log) then log.(files := Settled(env, log)) else log
  }

  ghost function ReadAnswer(log: Log, ops: nat): ReadReply {
    if !CanRead(log) then ReadRefused
    else if ops < Owed(log) then ReadCrashed
    else Events(if log.files.state.None? then [] else log.all[log.files.state.value.first..])
  }

  // ---------------------------------------------------------------- rotating and pruning

  /** The state anchored at the first line that pruning leaves. */
  function Anchored(st: State, b: Backups, limit: Option<nat>): State {
    if limit.None? || Young(b, None, limit.value) == [] then st
    else
      var e := Young(b, None, limit.value)[0];
      st.(first := e.sequence, firstPrev := e.prev)
  }

  /** The anchor is recorded and some segments beyond the limit are unlinked. */
  ghost function AnchorStep(st: State, b: Backups, limit: Option<nat>, unlinks: nat): Files {
    Files(Pruned(b, limit, unlinks), None, Some(Anchored(st, b, limit)))
  }

  /** The operations of a rotation up to and with the recorded anchor. */
  function AnchorCost(f: Files): nat {
    |f.backups.Keys| + 2
  }

  ghost function RotationCost(f: Files, limit: Option<nat>): nat
    requires f.active.Some?
  {
    AnchorCost(f) + |Beyond(Rotated(f.backups, f.active.value), limit)|
  }

  /** The files after the first operations of a rotation: shift the segments, turn the active file
      into segment 1, record the anchor, unlink what is beyond the limit. */
  ghost function RotateStep(f: Files, limit: Option<nat>, ops: nat): Files
    requires f.state.Some? && f.active.Some?
  {
    var b := Rotated(f.backups, f.active.value);
    if ops <= |f.backups.Keys| then f.(backups := Shifted(f.backups, ops))
    else if ops < AnchorCost(f) then Files(b, None, f.state)
    else AnchorStep(f.state.value, b, limit, ops - AnchorCost(f))
  }

  // ---------------------------------------------------------------- appending

  /** Create the active file unless it is there, append, record. */
  function AppendCost(f: Files): nat {
    if f.active.None? then 3 else 2
  }

  function AppendStep(env: Env, f: Files, e: Entry, ops: nat): Files {
    if ops + 2 < AppendCost(f) then f
    else if ops + 2 == AppendCost(f) then f.(active := Some(Lines(f.active)))
    else if ops + 1 == AppendCost(f) then f.(active := Some(Lines(f.active) + [e]))
    else
      Files(f.backups, Some(Lines(f.active) + [e]),
            Some(if f.state.None? then State(0, env.genesis, 0, e.hash)
                 else f.state.value.(last := e.sequence, lastHash := e.hash)))
  }

  /** The line is in the file. */
  predicate AppendsLine(f: Files, ops: nat) {
    ops + 1 >= AppendCost(f)
  }

  // ---------------------------------------------------------------- a whole write

  /** The files after the first operations of a write from a current state: rotate if need be, append. */
  ghost function Advance(env: Env, f: Files, limit: Option<nat>, rotates: bool, e: Entry, ops: nat): Files
    requires rotates ==> f.state.Some? && f.active.Some?
  {
    if !rotates then AppendStep(env, f, e, ops)
    else
      var cost := RotationCost(f, limit);
      if ops < cost then RotateStep(f, limit, ops) else AppendStep(env, RotateStep(f, limit, cost), e, ops - cost)
  }

  ghost predicate Appends(f: Files, limit: Option<nat>, rotates: bool, ops: nat)
    requires rotates ==> f.active.Some?
  {
    if !rotates then AppendsLine(f, ops) else ops >= RotationCost(f, limit) + 2
  }

  predicate Rotates(env: Env, log: Log, body: Body) {
    log.files.state.Some? && ShouldRotate(env, log.files.active, log.maxBytes, NextEntry(env, log.all, body))
  }

  /** The operations a write needs. */
  ghost function WriteCost(env: Env, log: Log, body: Body): nat {
    Owed(log) + if Rotates(env, log, body) then RotationCost(log.files, log.limit) + 3 else AppendCost(log.files)
  }

  ghost function WriteStep(env: Env, log: Log, body: Body, ops: nat): Log {
    if Lost(log) || ops < Owed(log) then log
    else
      var f, e := Settled(env, log), NextEntry(env, log.all, body);
      var rotates, left := Rotates(env, log, body), ops - Owed(log);
      log.(files := Advance(env, f, log.limit, rotates, e, left),
           all := if Appends(f, log.limit, rotates, left) then log.all + [e] else log.all)
  }

  ghost function WriteAnswer(env: Env, log: Log, body: Body, ops: nat): WriteReply {
    if Lost(log) then WriteRefused else if ops < WriteCost(env, log, body) then WriteCrashed else Written
  }

  // ---------------------------------------------------------------- what a rotation keeps

  lemma RotatedIsSound(b: Backups, active: Segment)
    requires NoEmptyBackup(b) && active != []
    ensures NoEmptyBackup(Rotated(b, active))
    ensures AllLines(Rotated(b, active), None) == AllLines(b, Some(active))
  {
    var c := Shifted(b, |b.Keys|);
    ShiftKeeps(b, b.Keys, |b.Keys|, Some(active), 0);
    ShiftedAt(b, b.Keys, |b.Keys|, 1);
    RotateKeepsLines(c, active);
  }

  /** A whole rotation moves everything up by one index. */
  lemma YoungOfRotated(b: Backups, active: Segment, n: nat)
    requires NoEmptyBackup(b)
    ensures Young(Rotated(b, active), None, n + 1) == Young(b, Some(active), n)
    ensures IsSuffix(Young(Rotated(b, active), None, n), Young(b, Some(active), n))
  {
    OlderOfRotated(b, active, n);
    OlderBelow(Rotated(b, active), n, n + 1);
    SuffixOfLines(Older(Rotated(b, active), n), Older(Rotated(b, active), n + 1), []);
    assert Young(Rotated(b, active), None, n + 1) == Older(Rotated(b, active), n + 1);
  }

  lemma WithoutOld(b: Backups, limit: Option<nat>, first: int, all: seq<Entry>, k: nat)
    requires NoEmptyBackup(b) && PartOf(AllLines(b, None), all) && Numbered(all) && 0 <= first < |all|
    requires OldIsBefore(b, limit, first) && k in b && !Within(k, limit)
    ensures NoEmptyBackup(b - {k}) && OldIsBefore(b - {k}, limit, first) && PartOf(AllLines(b - {k}, None), all)
    ensures Holds(AllLines(b - {k}, None), first, all) <==> Holds(AllLines(b, None), first, all)
  {
    UnlinkKeeps(b, None, first, all, k);
  }

  lemma {:induction false} PruneKeeps(b: Backups, limit: Option<nat>, c: nat, first: int, all: seq<Entry>)
    requires NoEmptyBackup(b) && PartOf(AllLines(b, None), all) && Numbered(all) && 0 <= first < |all|
    requires OldIsBefore(b, limit, first)
    ensures NoEmptyBackup(Pruned(b, limit, c)) && PartOf(AllLines(Pruned(b, limit, c), None), all)
    ensures Holds(AllLines(Pruned(b, limit, c), None), first, all) <==> Holds(AllLines(b, None), first, all)
    decreases c
  {
    if c > 0 && Beyond(b, limit) != {} {
      var k := Lowest(Beyond(b, limit));
      WithoutOld(b, limit, first, all, k);
      PruneKeeps(b - {k}, limit, c - 1, first, all);
    }
  }

  lemma {:induction false} YoungOfPruned(b: Backups, limit: Option<nat>, c: nat, n: nat)
    requires Within(n, limit)
    ensures Young(Pruned(b, limit, c), None, n) == Young(b, None, n)
    decreases c
  {
    if c > 0 && Beyond(b, limit) != {} {
      var k := Lowest(Beyond(b, limit));
      OlderAgrees(b - {k}, b, n);
      YoungOfPruned(b - {k}, limit, c - 1, n);
    }
  }

  /** The re-anchored state, and when it can be read from. */
  lemma AnchoredKeeps(env: Env, b: Backups, st: State, limit: Option<nat>, all: seq<Entry>)
    requires Chained(env.h, all, 0, env.genesis) && StateMatches(st, all, env.genesis) && st.last == |all| - 1
    requires NoEmptyBackup(b) && 1 in b && PartOf(AllLines(b, None), all) && (limit.Some? ==> limit.value >= 1)
    ensures var st' := Anchored(st, b, limit);
            && StateMatches(st', all, env.genesis) && st' == st.(first := st'.first, firstPrev := st'.firstPrev)
            && (Holds(AllLines(b, None), st'.first, all) <==>
                  if limit.None? then Holds(AllLines(b, None), st.first, all) else Whole(b, None, limit.value, all))
            && OldIsBefore(b, limit, st'.first)
  {
    if limit.Some? {
      LogIsNumbered(env.h, all, env.genesis);
      SegmentIsThere(b, limit.value, 1, b[1][0]);
      AnchorIff(b, None, limit.value, all);
      assert LinkedAt(env.h, all, Young(b, None, limit.value)[0].sequence, 0, env.genesis);
    }
  }

  /** A log that a rotation can start from. */
  ghost predicate CanRotate(env: Env, f: Files, limit: Option<nat>, all: seq<Entry>) {
    && Sound(env.h, env.genesis, f, all)
    && f.state.Some? && f.state.value.last == |all| - 1
    && f.active.Some? && f.active.value != []
    && (limit.Some? ==> limit.value >= 1)
  }

  /** What decides, before a write from a current state, whether the log can be read after it. */
  ghost predicate StaysReadable(f: Files, limit: Option<nat>, all: seq<Entry>, rotates: bool, ops: nat)
    requires limit.Some? ==> limit.value >= 1
  {
    if f.state.None? then !(1 <= ops <= 2)
    else if rotates && ops >= AnchorCost(f) && limit.Some? then Whole(f.backups, f.active, limit.value - 1, all)
    else Readable(f, all)
  }

  lemma ShiftingKeeps(env: Env, f: Files, limit: Option<nat>, all: seq<Entry>, ops: nat)
    requires CanRotate(env, f, limit, all) && ops <= |f.backups.Keys|
    ensures var g := RotateStep(f, limit, ops);
            Sound(env.h, env.genesis, g, all) && (Readable(g, all) <==> StaysReadable(f, limit, all, true, ops))
  {
    var b := f.backups;
    ShiftKeeps(b, b.Keys, ops, f.active, 0);
    SuffixOfLines(Older(Shifted(b, ops), 0), Older(b, 0), Lines(f.active));
    SuffixOfSuffix(Young(Shifted(b, ops), f.active, 0), Young(b, f.active, 0), all);
  }

  lemma NoActiveIsSound(env: Env, b: Backups, st: State, all: seq<Entry>)
    requires Chained(env.h, all, 0, env.genesis) && StateMatches(st, all, env.genesis)
    requires NoEmptyBackup(b) && PartOf(AllLines(b, None), all)
    ensures Sound(env.h, env.genesis, Files(b, None, Some(st)), all)
  {
    assert Young(b, None, 0) == [];
  }

  lemma MovingKeeps(env: Env, f: Files, limit: Option<nat>, all: seq<Entry>, ops: nat)
    requires CanRotate(env, f, limit, all) && |f.backups.Keys| < ops < AnchorCost(f)
    ensures var g := RotateStep(f, limit, ops);
            Sound(env.h, env.genesis, g, all) && (Readable(g, all) <==> StaysReadable(f, limit, all, true, ops))
  {
    RotatedIsSound(f.backups, f.active.value);
    NoActiveIsSound(env, Rotated(f.backups, f.active.value), f.state.value, all);
  }

  lemma PrunedIsSound(env: Env, b: Backups, st: State, limit: Option<nat>, unlinks: nat, all: seq<Entry>)
    requires Chained(env.h, all, 0, env.genesis) && StateMatches(st, all, env.genesis)
    requires NoEmptyBackup(b) && PartOf(AllLines(b, None), all)
    requires OldIsBefore(b, limit, st.first)
    ensures var g := Files(Pruned(b, limit, unlinks), None, Some(st));
            Sound(env.h, env.genesis, g, all) && (Readable(g, all) <==> Holds(AllLines(b, None), st.first, all))
  {
    LogIsNumbered(env.h, all, env.genesis);
    PruneKeeps(b, limit, unlinks, st.first, all);
    NoActiveIsSound(env, Pruned(b, limit, unlinks), st, all);
  }

  /** The segments hold what the files held, one index higher. */
  ghost predicate HoldsShifted(b: Backups, f: Files) {
    && NoEmptyBackup(b) && 1 in b
    && AllLines(b, None) == AllLines(f.backups, f.active)
    && forall n: nat :: IsOneUp(b, f, n)
  }

  predicate IsOneUp(b: Backups, f: Files, n: nat) {
    Young(b, None, n + 1) == Young(f.backups, f.active, n)
  }

  lemma RotatedHolds(f: Files)
    requires f.active.Some? && f.active.value != [] && NoEmptyBackup(f.backups)
    ensures HoldsShifted(Rotated(f.backups, f.active.value), f)
  {
    RotatedIsSound(f.backups, f.active.value);
    forall n: nat ensures IsOneUp(Rotated(f.backups, f.active.value), f, n) {
      YoungOfRotated(f.backups, f.active.value, n);
    }
  }

  lemma AnchoredIsSound(env: Env, f: Files, b: Backups, limit: Option<nat>, unlinks: nat, all: seq<Entry>)
    requires CanRotate(env, f, limit, all) && HoldsShifted(b, f)
    ensures var g := AnchorStep(f.state.value, b, limit, unlinks);
            && Sound(env.h, env.genesis, g, all) && g.state.value.last == |all| - 1
            && (Readable(g, all) <==> Holds(AllLines(b, None), g.state.value.first, all))
  {
    AnchoredKeeps(env, b, f.state.value, limit, all);
    PrunedIsSound(env, b, Anchored(f.state.value, b, limit), limit, unlinks, all);
  }

  lemma AnchoredReads(env: Env, f: Files, b: Backups, limit: Option<nat>, all: seq<Entry>, ops: nat)
    requires CanRotate(env, f, limit, all) && HoldsShifted(b, f) && ops >= AnchorCost(f)
    ensures Holds(AllLines(b, None), Anchored(f.state.value, b, limit).first, all) <==> StaysReadable(f, limit, all, true, ops)
  {
    AnchoredKeeps(env, b, f.state.value, limit, all);
    assert limit.Some? ==> IsOneUp(b, f, limit.value - 1);
  }

  lemma AnchoringKeeps(env: Env, f: Files, limit: Option<nat>, all: seq<Entry>, ops: nat)
    requires CanRotate(env, f, limit, all) && ops >= AnchorCost(f)
    ensures Sound(env.h, env.genesis, RotateStep(f, limit, ops), all)
    ensures RotateStep(f, limit, ops).state.Some? && RotateStep(f, limit, ops).state.value.last == |all| - 1
  {
    RotatedHolds(f);
    AnchoredIsSound(env, f, Rotated(f.backups, f.active.value), limit, ops - AnchorCost(f), all);
  }

  lemma AnchoringReads(env: Env, f: Files, limit: Option<nat>, all: seq<Entry>, ops: nat)
    requires CanRotate(env, f, limit, all) && ops >= AnchorCost(f)
    ensures Readable(RotateStep(f, limit, ops), all) <==> StaysReadable(f, limit, all, true, ops)
  {
    RotatedHolds(f);
    AnchoredIsSound(env, f, Rotated(f.backups, f.active.value), limit, ops - AnchorCost(f), all);
    AnchoredReads(env, f, Rotated(f.backups, f.active.value), limit, all, ops);
  }

  lemma RotateStepIs(f: Files, limit: Option<nat>, ops: nat, b: Backups)
    requires f.state.Some? && f.active.Some? && ops >= AnchorCost(f) && b == Rotated(f.backups, f.active.value)
    ensures RotateStep(f, limit, ops) == AnchorStep(f.state.value, b, limit, ops - AnchorCost(f))
    ensures RotationCost(f, limit) == AnchorCost(f) + |Beyond(b, limit)|
  {
  }

  /** However far a rotation gets, the files stay sound; once the anchor is recorded, they can be read
      exactly when the lines that pruning leaves are whole, and before that exactly when they could. */
  lemma RotateKeeps(env: Env, f: Files, limit: Option<nat>, all: seq<Entry>, ops: nat)
    requires CanRotate(env, f, limit, all)
    ensures var g := RotateStep(f, limit, ops);
            && Sound(env.h, env.genesis, g, all)
            && g.state.Some? && g.state.value.last == |all| - 1 && !Orphaned(g)
            && (Readable(g, all) <==> StaysReadable(f, limit, all, true, ops))
  {
    if ops <= |f.backups.Keys| {
      ShiftingKeeps(env, f, limit, all, ops);
    } else if ops < AnchorCost(f) {
      MovingKeeps(env, f, limit, all, ops);
    } else {
      AnchoringKeeps(env, f, limit, all, ops);
      AnchoringReads(env, f, limit, all, ops);
    }
  }

  lemma YoungOfShifting(b: Backups, active: Option<Segment>, ops: nat, n: nat)
    requires NoEmptyBackup(b)
    ensures IsSuffix(Young(Shifted(b, ops), active, n), Young(b, active, n))
  {
    ShiftKeeps(b, b.Keys, ops, active, n);
    SuffixOfLines(Older(Shifted(b, ops), n), Older(b, n), Lines(active));
  }

  lemma YoungOfAnchoring(b: Backups, active: Segment, st: State, limit: Option<nat>, unlinks: nat, n: nat)
    requires NoEmptyBackup(b) && Within(n, limit)
    ensures IsSuffix(Young(AnchorStep(st, Rotated(b, active), limit, unlinks).backups, None, n), Young(b, Some(active), n))
  {
    YoungOfRotated(b, active, n);
    YoungOfPruned(Rotated(b, active), limit, unlinks, n);
  }

  /** A rotation takes lines out of reach of an index, never adds any, as far as the limit reaches. */
  lemma YoungOfStep(f: Files, limit: Option<nat>, ops: nat, n: nat)
    requires f.state.Some? && f.active.Some? && NoEmptyBackup(f.backups) && Within(n, limit)
    ensures var g := RotateStep(f, limit, ops);
            IsSuffix(Young(g.backups, g.active, n), Young(f.backups, f.active, n))
  {
    if ops <= |f.backups.Keys| {
      YoungOfShifting(f.backups, f.active, ops, n);
    } else if ops < AnchorCost(f) {
      YoungOfRotated(f.backups, f.active.value, n);
    } else {
      YoungOfAnchoring(f.backups, f.active.value, f.state.value, limit, ops - AnchorCost(f), n);
    }
  }

  /** A complete one moves everything up by one index. */
  lemma YoungOfRotation(f: Files, limit: Option<nat>, n: nat)
    requires f.state.Some? && f.active.Some? && NoEmptyBackup(f.backups) && Within(n + 1, limit)
    ensures var g := RotateStep(f, limit, RotationCost(f, limit));
            Young(g.backups, g.active, n + 1) == Young(f.backups, f.active, n)
  {
    var b := Rotated(f.backups, f.active.value);
    YoungOfRotated(f.backups, f.active.value, n);
    YoungOfPruned(b, limit, |Beyond(b, limit)|, n + 1);
  }

  // ---------------------------------------------------------------- what an append keeps

  /** The stages of an append to a log with a state file. */
  lemma LaterAppendKeeps(env: Env, f: Files, all: seq<Entry>, e: Entry)
    requires Sound(env.h, env.genesis, f, all) && f.state.Some?
    requires Verifies(env.h, e, |all|, HashBefore(all, |all|, env.genesis))
    ensures var created, lines := f.(active := Some(Lines(f.active))), f.(active := Some(Lines(f.active) + [e]));
            && Sound(env.h, env.genesis, created, all) && (Readable(created, all) <==> Readable(f, all))
            && Sound(env.h, env.genesis, lines, all + [e]) && (Readable(lines, all + [e]) <==> Readable(f, all))
  {
    if f.active.None? {
      CreatedIsSound(env.h, env.genesis, f, all);
    }
    AppendedIsSound(env.h, env.genesis, f, all, e);
    AppendedIsReadable(f, all, e);
  }

  lemma LaterRecordKeeps(env: Env, f: Files, all: seq<Entry>, e: Entry)
    requires f.state.Some? && e.sequence == |all|
    requires var lines := f.(active := Some(Lines(f.active) + [e])); Sound(env.h, env.genesis, lines, all + [e])
    ensures var lines, done := f.(active := Some(Lines(f.active) + [e])), AppendStep(env, f, e, 3);
            Sound(env.h, env.genesis, done, all + [e]) && (Readable(done, all + [e]) <==> Readable(lines, all + [e]))
  {
    RecordedIsSound(env.h, env.genesis, f.(active := Some(Lines(f.active) + [e])), all + [e],
                    f.state.value.(last := e.sequence, lastHash := e.hash));
  }

  /** The stages of the first append. */
  lemma FirstAppendKeeps(env: Env, f: Files, e: Entry)
    requires f == Files(map[], None, None) && Verifies(env.h, e, 0, env.genesis)
    ensures Sound(env.h, env.genesis, f.(active := Some([])), [])
    ensures Sound(env.h, env.genesis, f.(active := Some([e])), [e])
  {
    AppendedIsSound(env.h, env.genesis, f, [], e);
    assert [] + [e] == [e];
  }

  lemma FirstRecordKeeps(env: Env, f: Files, e: Entry)
    requires f == Files(map[], Some([e]), None) && Sound(env.h, env.genesis, f, [e])
    ensures var done := f.(state := Some(State(0, env.genesis, 0, e.hash)));
            Sound(env.h, env.genesis, done, [e]) && Readable(done, [e])
  {
    RecordedIsSound(env.h, env.genesis, f, [e], State(0, env.genesis, 0, e.hash));
  }

  lemma FirstKeeps(env: Env, f: Files, e: Entry, ops: nat)
    requires f == Files(map[], None, None) && Verifies(env.h, e, 0, env.genesis)
    ensures var g, all := AppendStep(env, f, e, ops), if ops <= 1 then [] else [e];
            Sound(env.h, env.genesis, g, all) && (Readable(g, all) <==> !(1 <= ops <= 2))
  {
    FirstAppendKeeps(env, f, e);
    assert [] + [e] == [e];
    if ops > 2 {
      FirstRecordKeeps(env, f.(active := Some([e])), e);
    }
  }

  /** However far an append gets, the files stay sound; it makes nothing readable that was not, except
      that the first write must reach its state file once it has created the active one. */
  lemma AppendStepKeeps(env: Env, f: Files, limit: Option<nat>, all: seq<Entry>, e: Entry, ops: nat)
    requires limit.Some? ==> limit.value >= 1
    requires Sound(env.h, env.genesis, f, all) && !Orphaned(f)
    requires Verifies(env.h, e, |all|, HashBefore(all, |all|, env.genesis))
    ensures var g, all' := AppendStep(env, f, e, ops), if AppendsLine(f, ops) then all + [e] else all;
            && Sound(env.h, env.genesis, g, all')
            && (Readable(g, all') <==> StaysReadable(f, limit, all, false, ops))
  {
    if f.state.None? {
      assert all == [] && [] + [e] == [e];
      FirstKeeps(env, f, e, ops);
    } else {
      LaterAppendKeeps(env, f, all, e);
      LaterRecordKeeps(env, f, all, e);
    }
  }

  // ---------------------------------------------------------------- what a write keeps

  lemma StaysBeyond(f: Files, limit: Option<nat>, all: seq<Entry>, ops: nat, cost: nat)
    requires f.state.Some? && (limit.Some? ==> limit.value >= 1) && AnchorCost(f) <= cost <= ops
    ensures StaysReadable(f, limit, all, true, ops) <==> StaysReadable(f, limit, all, true, cost)
  {
  }

  lemma RotatingKeeps(env: Env, f: Files, limit: Option<nat>, all: seq<Entry>, e: Entry, ops: nat)
    requires CanRotate(env, f, limit, all) && ops >= RotationCost(f, limit)
    requires Verifies(env.h, e, |all|, HashBefore(all, |all|, env.genesis))
    ensures var left := ops - RotationCost(f, limit);
            var g := AppendStep(env, RotateStep(f, limit, RotationCost(f, limit)), e, left);
            var all' := if left >= 2 then all + [e] else all;
            Sound(env.h, env.genesis, g, all') && (Readable(g, all') <==> StaysReadable(f, limit, all, true, ops))
  {
    var cost := RotationCost(f, limit);
    RotateKeeps(env, f, limit, all, cost);
    assert RotateStep(f, limit, cost).active.None?;
    StaysBeyond(f, limit, all, ops, cost);
    AppendStepKeeps(env, RotateStep(f, limit, cost), limit, all, e, ops - cost);
  }

  /** Recording the newest line changes nothing else. */
  lemma SettledKeeps(env: Env, log: Log)
    requires LogOk(env, log) && log.files.state.Some?
    ensures var f := Settled(env, log);
            && Sound(env.h, env.genesis, f, log.all) && (Readable(f, log.all) <==> CanRead(log))
            && f == log.files.(state := f.state) && f.state.Some? && f.state.value.last == |log.all| - 1
  {
    RecordedIsSound(env.h, env.genesis, log.files, log.all, Recorded(log.files.state.value, log.all, env.genesis));
  }

  /** A write gets as far as recording the anchor of a rotation. */
  ghost predicate Reanchors(env: Env, log: Log, body: Body, ops: nat) {
    Rotates(env, log, body) && ops >= Owed(log) + AnchorCost(log.files)
  }

  /** What decides, before a write, whether the log can be read after it. */
  ghost predicate ReadsAfter(env: Env, log: Log, body: Body, ops: nat)
    requires LogOk(env, log)
  {
    if Lost(log) then false
    else if log.files.state.None? then !(1 <= ops <= 2)
    else if Reanchors(env, log, body, ops) && log.limit.Some? then IsWhole(log, log.limit.value - 1)
    else CanRead(log)
  }

  lemma WriteUnfolds(env: Env, log: Log, body: Body, ops: nat)
    requires !Lost(log) && ops >= Owed(log)
    ensures var next, f, e := WriteStep(env, log, body, ops), Settled(env, log), NextEntry(env, log.all, body);
            var rotates, left := Rotates(env, log, body), ops - Owed(log);
            && next.files == Advance(env, f, log.limit, rotates, e, left)
            && next.all == (if Appends(f, log.limit, rotates, left) then log.all + [e] else log.all)
            && next.limit == log.limit
  {
  }

  /** What a write from a current state keeps, however far it gets. */
  lemma AdvanceKeeps(env: Env, f: Files, limit: Option<nat>, all: seq<Entry>, rotates: bool, e: Entry, ops: nat,
                     g: Files, all': seq<Entry>)
    requires Sound(env.h, env.genesis, f, all) && !Orphaned(f) && (rotates ==> CanRotate(env, f, limit, all))
    requires limit.Some? ==> limit.value >= 1
    requires Verifies(env.h, e, |all|, HashBefore(all, |all|, env.genesis))
    requires g == Advance(env, f, limit, rotates, e, ops)
    requires all' == if Appends(f, limit, rotates, ops) then all + [e] else all
    ensures Sound(env.h, env.genesis, g, all')
    ensures Readable(g, all') <==> StaysReadable(f, limit, all, rotates, ops)
  {
    if !rotates {
      AppendStepKeeps(env, f, limit, all, e, ops);
    } else if ops < RotationCost(f, limit) {
      RotateKeeps(env, f, limit, all, ops);
    } else {
      RotatingKeeps(env, f, limit, all, e, ops);
    }
  }

  lemma FirstWriteKeeps(env: Env, log: Log, body: Body, ops: nat)
    requires LogOk(env, log) && !Lost(log) && log.files.state.None?
    ensures var next := WriteStep(env, log, body, ops);
            && Sound(env.h, env.genesis, next.files, next.all)
            && (Readable(next.files, next.all) <==> !(1 <= ops <= 2))
  {
    WriteUnfolds(env, log, body, ops);
    var next := WriteStep(env, log, body, ops);
    AdvanceKeeps(env, log.files, log.limit, log.all, false, NextEntry(env, log.all, body), ops, next.files, next.all);
  }

  lemma ReadsAfterUnfolds(env: Env, log: Log, body: Body, ops: nat)
    requires LogOk(env, log) && !Lost(log) && ops >= Owed(log) && log.files.state.Some?
    ensures ReadsAfter(env, log, body, ops) <==>
              StaysReadable(Settled(env, log), log.limit, log.all, Rotates(env, log, body), ops - Owed(log))
  {
    SettledKeeps(env, log);
  }

  lemma LaterWriteKeeps(env: Env, log: Log, body: Body, ops: nat)
    requires LogOk(env, log) && !Lost(log) && ops >= Owed(log) && log.files.state.Some?
    ensures var next := WriteStep(env, log, body, ops);
            && Sound(env.h, env.genesis, next.files, next.all)
            && (Readable(next.files, next.all) <==> ReadsAfter(env, log, body, ops))
  {
    SettledKeeps(env, log);
    WriteUnfolds(env, log, body, ops);
    ReadsAfterUnfolds(env, log, body, ops);
    var next := WriteStep(env, log, body, ops);
    AdvanceKeeps(env, Settled(env, log), log.limit, log.all, Rotates(env, log, body), NextEntry(env, log.all, body),
                  ops - Owed(log), next.files, next.all);
  }

  /** After any write, however far it gets and under whatever limit, the log is in order, and it can
      be read exactly when `ReadsAfter` said so before. */
  lemma WriteKeeps(env: Env, log: Log, body: Body, ops: nat)
    requires LogOk(env, log)
    ensures LogOk(env, WriteStep(env, log, body, ops))
    ensures CanRead(WriteStep(env, log, body, ops)) <==> ReadsAfter(env, log, body, ops)
  {
    if !Lost(log) && ops >= Owed(log) {
      if log.files.state.None? {
        FirstWriteKeeps(env, log, body, ops);
      } else {
        LaterWriteKeeps(env, log, body, ops);
      }
    }
  }
}
