/** The JSONL audit sink.  A call may crash before any of its durable file operations: `budget` is
    the number of them that still happen. */
module JsonlSink {
  import opened Basics
  import opened AuditChain
  import opened JsonlLog
  import opened JsonlSafety
  import opened JsonlSteps
  import opened JsonlRuns

  datatype Loaded = Loaded(state: State) | LoadRefused | LoadCrashed

  datatype Tail = NoTail | TailAt(entry: Entry) | BadTail

  // ---------------------------------------------------------------- listing segment files

  method HighestIndex(b: Backups) returns (k: nat)
    requires b != map[]
    ensures k in b && forall j | j in b :: j <= k
  {
    var left := b.Keys;
    k :| k in left;
    left := left - {k};
    while left != {}
      invariant k in b && left <= b.Keys
      invariant forall j | j in b :: j in left || j <= k
      decreases left
    {
      var j :| j in left;
      if j > k {
        k := j;
      }
      left := left - {j};
    }
  }

  method LowestIndex(b: Backups) returns (k: nat)
    requires b != map[]
    ensures k in b && forall j | j in b :: k <= j
  {
    var left := b.Keys;
    k :| k in left;
    left := left - {k};
    while left != {}
      invariant k in b && left <= b.Keys
      invariant forall j | j in b :: j in left || k <= j
      decreases left
    {
      var j :| j in left;
      if j < k {
        k := j;
      }
      left := left - {j};
    }
  }

  /** The contents of all segment files, oldest first. */
  method SegmentPaths(b: Backups, active: Option<Segment>) returns (paths: seq<Segment>)
    ensures Flatten(paths) == AllLines(b, active)
  {
    paths := [];
    var rest := b;
    while rest != map[]
      invariant Flatten(paths) + AllLines(rest, active) == AllLines(b, active)
      decreases rest.Keys
    {
      var k := HighestIndex(rest);
      TakeHighest(rest, active, k);
      FlattenSnoc(paths, rest[k]);
      assert Flatten(paths) + (rest[k] + AllLines(rest - {k}, active)) == Flatten(paths) + rest[k] + AllLines(rest - {k}, active);
      paths := paths + [rest[k]];
      rest := rest - {k};
    }
    NoBackups(active);
    if active.Some? {
      FlattenSnoc(paths, active.value);
      paths := paths + [active.value];
    }
  }

  // ---------------------------------------------------------------- reading

  /** Verify the lines of one segment, given what the segments before it gave. */
  method ReadSegment(h: Hash, segment: Segment, ghost before: Segment, st: State, found: seq<Entry>)
    returns (events: Option<seq<Entry>>)
    requires Scan(h, before, st.first, st.firstPrev) == Some(found)
    ensures events == Scan(h, before + segment, st.first, st.firstPrev)
  {
    var es, expected, prev := found, st.first + |found|, HashBefore(found, |found|, st.firstPrev);
    assert before + segment[..0] == before;
    for j := 0 to |segment|
      invariant Scan(h, before + segment[..j], st.first, st.firstPrev) == Some(es)
      invariant expected == st.first + |es| && prev == HashBefore(es, |es|, st.firstPrev)
    {
      var line := segment[j];
      ghost var upTo := before + segment[..j + 1];
      ScanSnoc(h, before + segment[..j], line, st.first, st.firstPrev);
      assert upTo == before + segment[..j] + [line];
      if line.sequence < expected {
        continue;
      }
      if !Verifies(h, line, expected, prev) {
        ScanFailsEarly(h, upTo, segment[j + 1..], st.first, st.firstPrev);
        assert before + segment == upTo + segment[j + 1..];
        return None;
      }
      es, expected, prev := es + [line], expected + 1, line.hash;
    }
    assert segment[..|segment|] == segment;
    events := Some(es);
  }

  /** Verify every line of every segment with a running expectation. */
  method ReadSegments(h: Hash, b: Backups, active: Option<Segment>, st: State) returns (events: Option<seq<Entry>>)
    ensures events == Scan(h, AllLines(b, active), st.first, st.firstPrev)
  {
    var paths := SegmentPaths(b, active);
    var found: seq<Entry> := [];
    for i := 0 to |paths|
      invariant Scan(h, Flatten(paths[..i]), st.first, st.firstPrev) == Some(found)
    {
      ghost var before := Flatten(paths[..i]);
      assert paths[..i + 1][..i] == paths[..i];
      events := ReadSegment(h, paths[i], before, st, found);
      if events.None? {
        PrefixOfPaths(paths, i + 1);
        ghost var upTo := before + paths[i];
        ScanFailsEarly(h, upTo, Flatten(paths)[|upTo|..], st.first, st.firstPrev);
        assert Flatten(paths) == upTo + Flatten(paths)[|upTo|..];
        return None;
      }
      found := events.value;
    }
    assert paths[..|paths|] == paths;
    events := Some(found);
  }

  lemma {:induction false} PrefixOfPaths(paths: seq<Segment>, i: nat)
    requires i <= |paths|
    ensures Flatten(paths[..i]) <= Flatten(paths)
    decreases |paths| - i
  {
    if i == |paths| {
      assert paths[..i] == paths;
    } else {
      var more := paths[..i + 1];
      assert more[..i] == paths[..i];
      assert Flatten(more) == Flatten(paths[..i]) + paths[i];
      PrefixOfPaths(paths, i + 1);
    }
  }

  /** The last line of the newest non-empty segment, checked on its own. */
  method ReadTail(h: Hash, b: Backups, active: Option<Segment>) returns (tail: Tail)
    ensures var lines := AllLines(b, active);
            tail == if lines == [] then NoTail
                    else
                      var e := lines[|lines| - 1];
                      if Verifies(h, e, e.sequence, e.prev) then TailAt(e) else BadTail
  {
    var paths := SegmentPaths(b, active);
    var i := |paths|;
    assert paths[..i] == paths;
    while i > 0
      invariant 0 <= i <= |paths| && Flatten(paths[..i]) == AllLines(b, active)
    {
      i := i - 1;
      assert paths[..i + 1][..i] == paths[..i];
      if paths[i] != [] {
        var e := paths[i][|paths[i]| - 1];
        return if Verifies(h, e, e.sequence, e.prev) then TailAt(e) else BadTail;
      }
    }
    tail := NoTail;
  }

  method FindCheckpoint(events: seq<Entry>, n: int) returns (e: Option<Entry>)
    ensures e == Checkpoint(events, n)
  {
    for i := 0 to |events|
      invariant Checkpoint(events, n) == Checkpoint(events[i..], n)
    {
      if events[i].sequence == n {
        return Some(events[i]);
      }
      assert events[i..][1..] == events[i + 1..];
    }
    e := None;
  }

  /** The first line of the active file and the segments up to an index. */
  method FirstRawEvent(b: Backups, active: Option<Segment>, n: nat) returns (e: Option<Entry>)
    ensures e == FirstOf(Young(b, active, n))
  {
    var rest := b;
    while rest != map[]
      invariant FirstOf(Young(rest, active, n)) == FirstOf(Young(b, active, n))
      decreases rest.Keys
    {
      var k := HighestIndex(rest);
      YoungestTake(rest, active, k, n);
      if k <= n && rest[k] != [] {
        return Some(rest[k][0]);
      }
      rest := rest - {k};
    }
    OlderOfNone(n);
    e := FirstOf(Lines(active));
  }

  function FirstOf(s: Segment): Option<Entry> {
    if s == [] then None else Some(s[0])
  }

  lemma YoungestTake(b: Backups, active: Option<Segment>, k: nat, n: nat)
    requires k in b && forall j | j in b :: j <= k
    ensures FirstOf(Young(b, active, n)) ==
              if k <= n && b[k] != [] then Some(b[k][0]) else FirstOf(Young(b - {k}, active, n))
  {
    if k <= n {
      OlderAbove(b, k, n);
      HighestFirst(b, k);
      OlderAbove(b - {k}, k, n);
    } else {
      OlderAgrees(b, b - {k}, n);
    }
  }

  // ---------------------------------------------------------------- what a load finds

  /** On a log with a state file, what the load gives, what the newest line is, and when it is recorded. */
  lemma LoadFinds(env: Env, log: Log)
    requires LogOk(env, log) && log.files.state.Some?
    ensures var f, st := log.files, log.files.state.value;
            var lines := AllLines(f.backups, f.active);
            && lines != []
            && var e := lines[|lines| - 1];
            && Verifies(env.h, e, e.sequence, e.prev)
            && st.first <= st.last <= e.sequence
            && (Owed(log) == 0 <==> e.sequence == st.last)
            && (Owed(log) == 0 ==> e.hash == st.lastHash && Settled(env, log) == f)
            && (Owed(log) == 1 ==> Settled(env, log).state != f.state)
            && Load(env.h, lines, true, f.state, env.genesis) ==
                 if CanRead(log) then Some((Settled(env, log).state.value, log.all[st.first..])) else None
  {
    TailIsNewest(env.h, env.genesis, AllLines(log.files.backups, log.files.active), log.all);
    LoadIff(env.h, env.genesis, log.files, log.all);
  }

  lemma NothingToLoad(env: Env, log: Log)
    requires LogOk(env, log) && log.files.state.None?
    ensures log.files.backups == map[] && Owed(log) == 0 && Settled(env, log) == log.files
    ensures CanRead(log) <==> log.files.active.None?
    ensures Lost(log) <==> log.files.active.Some?
  {
  }

  // ---------------------------------------------------------------- shifting

  /** More renames than segments change nothing. */
  lemma {:induction false} ShiftedBeyond(b: Backups, keys: set<nat>, c: nat)
    requires keys <= b.Keys && c >= |keys|
    ensures ShiftedFrom(b, keys, c) == ShiftedFrom(b, keys, |keys|)
    decreases c
  {
    if keys != {} {
      ShiftedBeyond(Renamed(b, Highest(keys)), keys - {Highest(keys)}, c - 1);
    }
  }

  // ---------------------------------------------------------------- writing from a current state

  /** The state a write works from records the newest line, or there is nothing yet. */
  ghost predicate IsCurrent(env: Env, log: Log, st: State) {
    && LogOk(env, log) && !Orphaned(log.files)
    && st.last == |log.all| - 1 && st.lastHash == HashBefore(log.all, |log.all|, env.genesis)
    && if log.files.state.Some? then log.files.state == Some(st) else st == Blank(env.genesis)
  }

  /** A write from a current state gets through `ops` operations. */
  ghost predicate IsAdvance(env: Env, log: Log, body: Body, ops: nat, next: Log, r: WriteReply) {
    var f, e, rotates := log.files, NextEntry(env, log.all, body), Rotates(env, log, body);
    && next.files == Advance(env, f, log.limit, rotates, e, ops)
    && next.all == (if Appends(f, log.limit, rotates, ops) then log.all + [e] else log.all)
    && next.limit == log.limit && next.maxBytes == log.maxBytes
    && r == if ops >= (if rotates then RotationCost(f, log.limit) + 3 else AppendCost(f)) then Written else WriteCrashed
  }

  lemma SettledIsCurrent(env: Env, log: Log)
    requires LogOk(env, log) && !Lost(log)
    ensures var settled := log.(files := Settled(env, log));
            IsCurrent(env, settled, if settled.files.state.Some? then settled.files.state.value else Blank(env.genesis))
  {
    if log.files.state.Some? {
      SettledKeeps(env, log);
    }
  }

  lemma RotatedIsCurrent(env: Env, log: Log, body: Body)
    requires LogOk(env, log) && Rotates(env, log, body) && log.files.state.value.last == |log.all| - 1
    ensures log.files.active.Some?
    ensures var g := RotateStep(log.files, log.limit, RotationCost(log.files, log.limit));
            g.state.Some? && g.state.value.first <= g.state.value.last && g.active.None?
  {
    RotateKeeps(env, log.files, log.limit, log.all, RotationCost(log.files, log.limit));
  }

  lemma AnchorStepBeyond(st: State, b: Backups, limit: Option<nat>, unlinks: nat)
    requires unlinks >= |Beyond(b, limit)|
    ensures AnchorStep(st, b, limit, unlinks) == AnchorStep(st, b, limit, |Beyond(b, limit)|)
  {
    PrunedBeyond(b, limit, unlinks);
  }

  /** More operations than a rotation has change nothing. */
  lemma RotateStepBeyond(f: Files, limit: Option<nat>, ops: nat)
    requires f.state.Some? && f.active.Some? && ops >= RotationCost(f, limit)
    ensures RotateStep(f, limit, ops) == RotateStep(f, limit, RotationCost(f, limit))
  {
    var b := Rotated(f.backups, f.active.value);
    RotateStepIs(f, limit, ops, b);
    RotateStepIs(f, limit, RotationCost(f, limit), b);
    AnchorStepBeyond(f.state.value, b, limit, ops - AnchorCost(f));
  }

  lemma AdvanceIsWrite(env: Env, log: Log, settled: Log, body: Body, ops: nat, left: nat, next: Log, r: WriteReply)
    requires !Lost(log) && left + Owed(log) == ops && settled == log.(files := Settled(env, log))
    requires IsAdvance(env, settled, body, left, next, r)
    ensures next == WriteStep(env, log, body, ops) && r == WriteAnswer(env, log, body, ops)
  {
  }

  // ---------------------------------------------------------------- the sink

  /** The files of one log, and the limits of the process that works on it at the moment. */
  class Sink {
    const env: Env

    var backupCount: Option<nat>
    var maxBytes: Option<nat>
    var backups: Backups
    var active: Option<Segment>
    var state: Option<State>
    ghost var all: seq<Entry>

    function Disk(): Files
      reads this
    {
      Files(backups, active, state)
    }

    ghost function View(): Log
      reads this
    {
      Log(Disk(), all, backupCount, maxBytes)
    }

    /** Every state of the files that calls and crashes can lead to, under whatever limits. */
    ghost predicate Valid()
      reads this
    {
      LogOk(env, View())
    }

    constructor (env: Env)
      ensures Valid() && View() == EMPTY && this.env == env
    {
      this.env := env;
      backupCount, maxBytes, backups, active, state, all := None, None, map[], None, None, [];
      new;
      EmptyIsOk(env);
    }

    /** Another process goes on with the log, under its own limits. */
    method Open(backupCount: Option<int>, maxBytes: Option<int>) returns (ok: bool)
      requires Valid()
      modifies this`backupCount, this`maxBytes
      ensures Valid() && View() == OpenStep(old(View()), backupCount, maxBytes) && (ok <==> Allowed(backupCount, maxBytes))
    {
      ok := !(maxBytes.Some? && maxBytes.value <= 0) && !(backupCount.Some? && (backupCount.value < 1 || maxBytes.None?));
      if ok {
        this.backupCount, this.maxBytes := backupCount, maxBytes;
      }
    }

    // -------------------------------------------------------------- loading

    /** Read everything, and adopt appended lines that the state file does not know yet. */
    method LoadOrRebuild(budget: nat) returns (r: Loaded, left: nat)
      modifies this`state
      ensures r.Loaded? ==> left == budget - (if state == old(state) then 0 else 1)
      ensures match Load(env.h, AllLines(backups, active), backups != map[] || active.Some?, old(state), env.genesis)
              case None => r.LoadRefused? && state == old(state)
              case Some((st, _)) =>
                if budget == 0 && old(state).Some? && old(state) != Some(st) then r.LoadCrashed? && state == old(state)
                else r == Loaded(st) && state == if old(state).None? then None else Some(st)
    {
      left := budget;
      if state.None? {
        return if backups != map[] || active.Some? then LoadRefused else Loaded(Blank(env.genesis)), left;
      }
      var st := state.value;
      var events := ReadSegments(env.h, backups, active, st);
      if events.None? {
        return LoadRefused, left;
      }
      var es := events.value;
      if es == [] {
        return if st.last >= st.first then LoadRefused else Loaded(st), left;
      }
      var last := es[|es| - 1];
      if last.sequence == st.last && last.hash == st.lastHash {
        return Loaded(st), left;
      }
      if last.sequence < st.last {
        return LoadRefused, left;
      }
      if st.last >= st.first {
        var checkpoint := FindCheckpoint(es, st.last);
        if checkpoint.None? || checkpoint.value.hash != st.lastHash {
          return LoadRefused, left;
        }
      }
      st := st.(last := last.sequence, lastHash := last.hash);
      if left == 0 {
        return LoadCrashed, left;
      }
      state, left := Some(st), left - 1;
      r := Loaded(st);
    }

    /** The short cut before a write: the state as it is when the newest line agrees with it.  It gives
        the same state as a full load; a log that cannot be read passes when nothing is owed. */
    method LoadForWrite(budget: nat) returns (r: Loaded, left: nat)
      requires Valid()
      modifies this`state
      ensures r.LoadRefused? <==> old(Lost(View()))
      ensures r.LoadCrashed? <==> !old(Lost(View())) && budget < old(Owed(View()))
      ensures !r.Loaded? ==> state == old(state)
      ensures r.Loaded? ==>
                && left == budget - old(Owed(View())) && Disk() == old(Settled(env, View()))
                && r.state == if state.None? then Blank(env.genesis) else state.value
    {
      if state.None? {
        NothingToLoad(env, View());
        r, left := LoadOrRebuild(budget);
        return;
      }
      var st := state.value;
      LoadFinds(env, View());
      var tail := ReadTail(env.h, backups, active);
      match tail
      case BadTail => return LoadRefused, budget;
      case NoTail => return if st.last >= st.first then LoadRefused else Loaded(st), budget;
      case TailAt(e) =>
        if e.sequence == st.last && e.hash == st.lastHash {
          return Loaded(st), budget;
        }
        if e.sequence <= st.last {
          return LoadRefused, budget;
        }
        r, left := LoadOrRebuild(budget);
    }

    /** Read and verify whatever is on disk. */
    method ReadDisk(budget: nat) returns (r: ReadReply)
      modifies this`state
      ensures match Load(env.h, AllLines(backups, active), backups != map[] || active.Some?, old(state), env.genesis)
              case None => r.ReadRefused? && state == old(state)
              case Some((st, events)) =>
                if budget == 0 && old(state).Some? && old(state) != Some(st) then r.ReadCrashed? && state == old(state)
                else r == Events(events) && state == if old(state).None? then None else Some(st)
    {
      var loaded, _ := LoadOrRebuild(budget);
      match loaded
      case LoadRefused => r := ReadRefused;
      case LoadCrashed => r := ReadCrashed;
      case Loaded(st) =>
        var again := ReadSegments(env.h, backups, active, st);
        if old(state).Some? {
          ScanIsChained(env.h, AllLines(backups, active), st.first, st.firstPrev);
          ReconciledEnds(env.h, again.value, old(state).value);
        }
        r := if again.Some? && Ends(again.value, st) then Events(again.value) else ReadRefused;
    }

    /** Read and verify: refused exactly when something is missing from the anchor on, or the first
        write never got to its state file; otherwise every append from the anchor on. */
    method ReadVerified(budget: nat) returns (r: ReadReply)
      requires Valid()
      modifies this`state
      ensures Valid()
      ensures View() == ReadStep(env, old(View()), budget) && r == ReadAnswer(old(View()), budget)
    {
      if state.Some? {
        LoadFinds(env, View());
      } else {
        NothingToLoad(env, View());
      }
      ReadKeeps(env, View(), budget);
      r := ReadDisk(budget);
    }

    // -------------------------------------------------------------- rotating and pruning

    /** Shift every rotated segment up by one, highest index first. */
    method ShiftBackups(budget: nat) returns (crashed: bool, left: nat)
      modifies this`backups
      ensures backups == Shifted(old(backups), budget)
      ensures crashed <==> budget < |old(backups).Keys|
      ensures !crashed ==> left == budget - |old(backups).Keys|
    {
      left := budget;
      var pending := backups;
      while pending != map[]
        invariant pending.Keys <= backups.Keys
        invariant Shifted(old(backups), budget) == ShiftedFrom(backups, pending.Keys, left)
        invariant left + |old(backups).Keys| == budget + |pending.Keys|
        decreases pending.Keys
      {
        var k := HighestIndex(pending);
        assert k == Highest(pending.Keys) && (pending - {k}).Keys == pending.Keys - {k};
        if left == 0 {
          return true, left;
        }
        backups := Renamed(backups, k);
        left, pending := left - 1, pending - {k};
      }
      crashed := false;
    }

    /** Shift the rotated segments, then turn the active file into segment 1. */
    method Rotate(budget: nat) returns (crashed: bool, left: nat)
      requires active.Some?
      modifies this`backups, this`active
      ensures crashed <==> budget <= |old(backups).Keys|
      ensures if crashed then backups == Shifted(old(backups), budget) && active == old(active)
              else backups == Rotated(old(backups), old(active).value) && active.None? && left == budget - |old(backups).Keys| - 1
    {
      crashed, left := ShiftBackups(budget);
      if !crashed {
        if left == 0 {
          return true, left;
        }
        ShiftedBeyond(old(backups), old(backups).Keys, budget);
        backups, active, left := backups[1 := active.value], None, left - 1;
      }
    }

    /** Anchor the retained chain at the first line that pruning leaves. */
    method StateBeforePrune(st: State) returns (anchored: State)
      requires active.None?
      ensures anchored == Anchored(st, backups, backupCount)
    {
      if backupCount.None? {
        return st;
      }
      var first := FirstRawEvent(backups, active, backupCount.value);
      anchored := if first.None? then st else st.(first := first.value.sequence, firstPrev := first.value.prev);
    }

    /** Unlink the segments beyond the limit, lowest index first. */
    method Prune(budget: nat) returns (crashed: bool, left: nat)
      modifies this`backups
      ensures backups == Pruned(old(backups), backupCount, budget)
      ensures crashed <==> budget < |Beyond(old(backups), backupCount)|
      ensures !crashed ==> left == budget - |Beyond(old(backups), backupCount)|
    {
      left := budget;
      if backupCount.None? {
        return false, left;
      }
      var pending := backups;
      while pending != map[]
        invariant forall k | k in pending :: k in backups
        invariant Beyond(backups, backupCount) == Beyond(pending, backupCount)
        invariant left + |Beyond(old(backups), backupCount)| == budget + |Beyond(backups, backupCount)|
        invariant Pruned(old(backups), backupCount, budget) == Pruned(backups, backupCount, left)
        decreases pending.Keys
      {
        var k := LowestIndex(pending);
        assert Beyond(pending - {k}, backupCount) == Beyond(pending, backupCount) - {k};
        if k > backupCount.value {
          assert k in Beyond(backups, backupCount);
          if left == 0 {
            return true, left;
          }
          assert k == Lowest(Beyond(backups, backupCount));
          assert Beyond(backups - {k}, backupCount) == Beyond(backups, backupCount) - {k};
          backups, left := backups - {k}, left - 1;
        }
        pending := pending - {k};
      }
      crashed := false;
    }

    /** Re-anchor, record the anchor, prune. */
    method AnchorAndPrune(st: State, budget: nat) returns (crashed: bool, left: nat, anchored: State)
      requires state == Some(st) && active.None?
      modifies this`backups, this`state
      ensures budget == 0 ==> Disk() == old(Disk())
      ensures budget > 0 ==> Disk() == AnchorStep(st, old(backups), backupCount, budget - 1)
      ensures crashed <==> budget < 1 + |Beyond(old(backups), backupCount)|
      ensures !crashed ==> left == budget - 1 - |Beyond(old(backups), backupCount)| && state == Some(anchored)
    {
      left := budget;
      anchored := StateBeforePrune(st);
      if left == 0 {
        crashed := true;
        return;
      }
      state, left := Some(anchored), left - 1;
      crashed, left := Prune(left);
    }

    /** Rotate, re-anchor, record the anchor, prune. */
    method RotateAndPrune(st: State, budget: nat) returns (crashed: bool, left: nat, anchored: State)
      requires state == Some(st) && active.Some?
      modifies this`backups, this`active, this`state
      ensures Disk() == RotateStep(old(Disk()), backupCount, budget)
      ensures crashed <==> budget < RotationCost(old(Disk()), backupCount)
      ensures !crashed ==> left == budget - RotationCost(old(Disk()), backupCount) && state == Some(anchored)
    {
      anchored := st;
      crashed, left := Rotate(budget);
      if !crashed {
        crashed, left, anchored := AnchorAndPrune(st, left);
      }
    }

    // -------------------------------------------------------------- writing

    /** Create the active file unless it is there, append the line, then record it. */
    method AppendLine(st: State, e: Entry, budget: nat) returns (r: WriteReply)
      requires if state.Some? then state == Some(st) && st.first <= st.last
               else st == Blank(env.genesis) && e.sequence == 0 && e.prev == env.genesis
      modifies this`active, this`state, this`all
      ensures Disk() == AppendStep(env, old(Disk()), e, budget)
      ensures all == if AppendsLine(old(Disk()), budget) then old(all) + [e] else old(all)
      ensures r == if budget >= AppendCost(old(Disk())) then Written else WriteCrashed
    {
      var left := budget;
      if active.None? {
        if left == 0 {
          return WriteCrashed;
        }
        active, left := Some([]), left - 1;
      }
      if left == 0 {
        return WriteCrashed;
      }
      active, left := Some(Lines(active) + [e]), left - 1;
      all := all + [e];
      var next := if st.last < st.first then State(e.sequence, e.prev, e.sequence, e.hash)
                  else st.(last := e.sequence, lastHash := e.hash);
      if left == 0 {
        return WriteCrashed;
      }
      state := Some(next);
      r := Written;
    }

    /** Write one event from a current state, rotating first when it would not fit. */
    method WriteFrom(st: State, body: Body, budget: nat) returns (r: WriteReply)
      requires IsCurrent(env, View(), st)
      modifies this`backups, this`active, this`state, this`all
      ensures IsAdvance(env, old(View()), body, budget, View(), r)
    {
      var e := Prepare(env.h, body, st.last + 1, st.lastHash);
      var left, current := budget, st;
      if ShouldRotate(env, active, maxBytes, e) {
        RotatedIsCurrent(env, View(), body);
        var crashed;
        crashed, left, current := RotateAndPrune(st, budget);
        if crashed {
          return WriteCrashed;
        }
        RotateStepBeyond(old(Disk()), backupCount, budget);
      }
      r := AppendLine(current, e, left);
    }

    /** Write one event.  It is refused exactly when the log is lost, and succeeds exactly when it gets
        through all its durable operations; a crash leaves what the operations before it made. */
    method Write(body: Body, budget: nat) returns (r: WriteReply)
      requires Valid()
      modifies this`backups, this`active, this`state, this`all
      ensures Valid()
      ensures View() == WriteStep(env, old(View()), body, budget) && r == WriteAnswer(env, old(View()), body, budget)
    {
      WriteKeeps(env, View(), body, budget);
      var loaded, left := LoadForWrite(budget);
      match loaded
      case LoadRefused => r := WriteRefused;
      case LoadCrashed => r := WriteCrashed;
      case Loaded(st) =>
        SettledIsCurrent(env, old(View()));
        ghost var settled := View();
        r := WriteFrom(st, body, left);
        AdvanceIsWrite(env, old(View()), settled, body, budget, left, View(), r);
    }
  }

  // ---------------------------------------------------------------- whole lives

  /** One call on the object is one step of the log. */
  method Serve(sink: Sink, call: Call) returns (reply: Reply)
    requires sink.Valid()
    modifies sink
    ensures sink.Valid()
    ensures sink.View() == Step(sink.env, old(sink.View()), call) && reply == Answer(sink.env, old(sink.View()), call)
  {
    match call
    case OpenCall(limit, maxBytes) =>
      var ok := sink.Open(limit, maxBytes);
      reply := Opened(ok);
    case WriteCall(body, ops) =>
      var r := sink.Write(body, ops);
      reply := Wrote(r);
    case ReadCall(ops) =>
      var r := sink.ReadVerified(ops);
      reply := Returned(r);
  }

  /** Any calls one after the other, by processes with any limits that crash anywhere, then a read.  What
      is read is every append from the anchor on, contiguous and chained, and the confirmed writes are
      among the appends in the order of their confirmation.  The read is refused only if a limit was raised
      and a write crashed, or if nothing was ever confirmed. */
  method Lifetime(env: Env, calls: seq<Call>) returns (replies: seq<Reply>, reply: ReadReply, ghost run: Run)
    ensures IsLife(env, run) && run.calls == calls && run.replies == replies
    ensures var log := run.logs[|calls|];
            && Chained(env.h, log.all, 0, env.genesis)
            && AreAmong(Confirmed(run, |calls|), log.all)
            && (reply.Events? <==> CanRead(log)) && (reply.ReadRefused? <==> !CanRead(log))
            && (reply.Events? ==> IsSuffix(reply.events, log.all))
    ensures NeverRaised(calls, |calls|) || Uncrashed(run, |calls|) ==>
              reply.Events? || (Confirmed(run, |calls|) == [] && |run.logs[|calls|].all| <= 1)
    ensures reply.Events? && (forall i | 0 <= i < |calls| :: !SetsLimit(calls[i])) ==>
              Chained(env.h, reply.events, 0, env.genesis) && AreAmong(Confirmed(run, |calls|), reply.events)
    ensures |replies| == |calls| && !reply.ReadCrashed?
    ensures (NeverRaised(calls, |calls|) || Wrote(WriteCrashed) !in replies) && Wrote(Written) in replies ==> reply.Events?
  {
    var sink := new Sink(env);
    replies, run := [], Run([], [], [EMPTY]);
    for i := 0 to |calls|
      invariant sink.Valid() && fresh(sink) && sink.env == env
      invariant IsLife(env, run) && run.calls == calls[..i] && run.replies == replies && run.logs[i] == sink.View()
    {
      var r := Serve(sink, calls[i]);
      ghost var past := run;
      run := Extended(env, past, calls[i]);
      replies := replies + [r];
      assert calls[..i + 1] == calls[..i] + [calls[i]];
    }
    assert calls[..|calls|] == calls;
    reply := sink.ReadVerified(1);
    ReadsLife(env, run, reply);
    if Wrote(Written) in replies {
      WrittenIsConfirmed(env, run);
    }
  }

  lemma {:induction false} ConfirmedStays(run: Run, i: nat, k: nat)
    requires Fits(run) && i < k <= |run.calls| && run.calls[i].WriteCall? && run.replies[i] == Wrote(Written)
    ensures Confirmed(run, k) != []
  {
    if i < k - 1 {
      ConfirmedStays(run, i, k - 1);
    }
  }

  /** A reply that says so is a confirmation. */
  lemma WrittenIsConfirmed(env: Env, run: Run)
    requires IsLife(env, run) && Wrote(Written) in run.replies
    ensures Confirmed(run, |run.calls|) != []
  {
    var i :| 0 <= i < |run.replies| && run.replies[i] == Wrote(Written);
    assert StepAt(env, run, i);
    ConfirmedStays(run, i, |run.calls|);
  }

  lemma ReadsLife(env: Env, run: Run, reply: ReadReply)
    requires IsLife(env, run) && reply == ReadAnswer(run.logs[|run.calls|], 1)
    ensures var n, log := |run.calls|, run.logs[|run.calls|];
            && Chained(env.h, log.all, 0, env.genesis)
            && AreAmong(Confirmed(run, n), log.all)
            && (reply.Events? <==> CanRead(log)) && (reply.ReadRefused? <==> !CanRead(log))
            && (reply.Events? ==> IsSuffix(reply.events, log.all))
            && (NeverRaised(run.calls, n) || Uncrashed(run, n) ==>
                  reply.Events? || (Confirmed(run, n) == [] && |log.all| <= 1))
            && (reply.Events? && (forall i | 0 <= i < n :: !SetsLimit(run.calls[i])) ==>
                  Chained(env.h, reply.events, 0, env.genesis) && AreAmong(Confirmed(run, n), reply.events))
  {
    var n := |run.calls|;
    var log := run.logs[n];
    LifeKeeps(env, run, n);
    var at := ConfirmedArePlaced(env, run, n);
    assert AreAmong(Confirmed(run, n), log.all);
    if NeverRaised(run.calls, n) || Uncrashed(run, n) {
      ReadsBack(env, run, n);
    }
    if reply.Events? {
      SuffixIs(reply.events, log.all);
      if forall i | 0 <= i < n :: !SetsLimit(run.calls[i]) {
        UnlimitedKeepsAll(env, run, n);
        ConfirmedIsRecorded(env, run, n);
        assert log.all[0..] == log.all;
      }
    }
  }
}
