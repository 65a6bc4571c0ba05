/** The files of a rotating JSONL audit log and what their lines say together. */
module JsonlLog {
  import opened Basics
  import opened AuditChain

  type Segment = seq<Entry>

  /** Rotated segments by index; a higher index is older. */
  type Backups = map<nat, Segment>

  /** The durable state file: where the retained chain starts, and the last recorded event. */
  datatype State = State(first: int, firstPrev: Digest, last: int, lastHash: Digest)

  datatype Files = Files(backups: Backups, active: Option<Segment>, state: Option<State>)

  function Lines(s: Option<Segment>): Segment {
    if s.Some? then s.value else []
  }

  /** The lines of segments `n` down to 0, oldest first. */
  function Older(b: Backups, n: nat): Segment {
    if n == 0 then (if 0 in b then b[0] else [])
    else if n in b then b[n] + Older(b, n - 1)
    else Older(b, n - 1)
  }

  ghost function MaxKey(s: set<nat>): (m: nat)
    ensures forall k | k in s :: k <= m
  {
    if s == {} then 0
    else
      var x :| x in s;
      var m := MaxKey(s - {x});
      assert forall k | k in s :: k == x || k in s - {x};
      if x < m then m else x
  }

  /** Everything in the segment files, oldest line first. */
  ghost function AllLines(b: Backups, active: Option<Segment>): Segment {
    Older(b, MaxKey(b.Keys)) + Lines(active)
  }

  // ---------------------------------------------------------------- renames and removals

  lemma OlderAbove(b: Backups, n: nat, m: nat)
    requires n <= m && forall k | k in b :: k <= n
    ensures Older(b, m) == Older(b, n)
  {
    if n < m {
      OlderAbove(b, n, m - 1);
    }
  }

  lemma OlderOfNone(n: nat)
    ensures Older(map[], n) == []
  {
  }

  /** Any bound on the indices gives the same lines. */
  lemma AnyBound(b: Backups, n: nat)
    requires forall k | k in b :: k <= n
    ensures Older(b, n) == Older(b, MaxKey(b.Keys))
  {
    var m := MaxKey(b.Keys);
    if n <= m {
      OlderAbove(b, n, m);
    } else {
      OlderAbove(b, m, n);
    }
  }

  lemma OlderAgrees(b: Backups, c: Backups, n: nat)
    requires forall k: nat | k <= n :: (k in b <==> k in c) && (k in b ==> b[k] == c[k])
    ensures Older(b, n) == Older(c, n)
  {
  }

  function Renamed(b: Backups, k: nat): Backups
    requires k in b
  {
    (b - {k})[k + 1 := b[k]]
  }

  lemma {:induction false} RenameUpTo(b: Backups, k: nat, n: nat)
    requires k in b && k >= 1 && k + 1 !in b && k < n
    ensures Older(Renamed(b, k), n) == Older(b, n)
  {
    var c := Renamed(b, k);
    if n == k + 1 {
      OlderAgrees(b, c, k - 1);
    } else {
      RenameUpTo(b, k, n - 1);
    }
  }

  /** Moving a segment to a free next index keeps the oldest-first line order. */
  lemma RenameKeepsLines(b: Backups, active: Option<Segment>, k: nat)
    requires k in b && k >= 1 && k + 1 !in b
    ensures AllLines(Renamed(b, k), active) == AllLines(b, active)
  {
    var n := MaxKey(b.Keys) + 1;
    RenameUpTo(b, k, n);
    AnyBound(b, n);
    AnyBound(Renamed(b, k), n);
  }

  lemma {:induction false} FirstSlot(b: Backups, s: Segment, n: nat)
    requires 0 !in b && 1 !in b && n >= 1
    ensures Older(b[1 := s], n) == Older(b, n) + s
  {
    if n == 1 {
      assert Older(b, 1) == [] && Older(b[1 := s], 0) == [];
    } else {
      FirstSlot(b, s, n - 1);
      if n in b {
        assert b[n] + (Older(b, n - 1) + s) == (b[n] + Older(b, n - 1)) + s;
      }
    }
  }

  /** Turning the active file into segment 1 keeps the line order. */
  lemma RotateKeepsLines(b: Backups, s: Segment)
    requires 0 !in b && 1 !in b
    ensures AllLines(b[1 := s], None) == AllLines(b, Some(s))
  {
    var n := MaxKey(b.Keys) + 1;
    FirstSlot(b, s, n);
    AnyBound(b, n);
    AnyBound(b[1 := s], n);
  }

  predicate SameFromEnd(s: Segment, t: Segment, i: int) {
    0 < i <= |s| <= |t| ==> s[|s| - i] == t[|t| - i]
  }

  /** The one is the end of the other. */
  ghost predicate IsSuffix(s: Segment, t: Segment) {
    |s| <= |t| && forall i :: SameFromEnd(s, t, i)
  }

  lemma SuffixIs(s: Segment, t: Segment)
    ensures IsSuffix(s, t) <==> |s| <= |t| && s == t[|t| - |s|..]
  {
    if IsSuffix(s, t) {
      forall i | 0 <= i < |s| ensures s[i] == t[|t| - |s| + i] {
        assert SameFromEnd(s, t, |s| - i);
      }
    }
    if |s| <= |t| && s == t[|t| - |s|..] {
      forall i ensures SameFromEnd(s, t, i) {
      }
    }
  }

  lemma SuffixOfConcat(x: Segment, y: Segment)
    ensures IsSuffix(y, x + y)
  {
    forall i ensures SameFromEnd(y, x + y, i) {
    }
  }

  lemma SuffixOfSuffix(x: Segment, y: Segment, z: Segment)
    requires IsSuffix(x, y) && IsSuffix(y, z)
    ensures IsSuffix(x, z)
  {
    forall i ensures SameFromEnd(x, z, i) {
      assert SameFromEnd(x, y, i) && SameFromEnd(y, z, i);
    }
  }

  lemma OlderBelow(b: Backups, n: nat, m: nat)
    requires n <= m
    ensures IsSuffix(Older(b, n), Older(b, m))
    decreases m
  {
    if n < m {
      OlderBelow(b, n, m - 1);
      SuffixOfConcat(if m in b then b[m] else [], Older(b, m - 1));
      assert [] + Older(b, m - 1) == Older(b, m - 1);
      SuffixOfSuffix(Older(b, n), Older(b, m - 1), Older(b, m));
    }
  }

  ghost function Highest(s: set<nat>): (m: nat)
    requires s != {}
    ensures m in s && forall k | k in s :: k <= m
  {
    var x :| x in s;
    if s == {x} then x
    else
      var m := Highest(s - {x});
      assert forall k | k in s :: k == x || k in s - {x};
      if x < m then m else x
  }

  /** After the first `c` renames of the segments at some indices to the next one, highest index first. */
  ghost function ShiftedFrom(b: Backups, keys: set<nat>, c: nat): Backups
    requires keys <= b.Keys
    decreases c
  {
    if c == 0 || keys == {} then b else ShiftedFrom(Renamed(b, Highest(keys)), keys - {Highest(keys)}, c - 1)
  }

  ghost function Shifted(b: Backups, c: nat): Backups {
    ShiftedFrom(b, b.Keys, c)
  }

  /** Only the active file can be empty: it is created before its first line is written. */
  predicate NoEmptyBackup(b: Backups) {
    forall k | k in b :: k >= 1 && b[k] != []
  }

  /** There is room to rename the segments at some indices, highest first. */
  ghost predicate HaveRoom(b: Backups, keys: set<nat>) {
    keys <= b.Keys && forall j, k | j in b && j !in keys && k in keys :: k + 1 < j
  }

  /** A rename to a free next index can only take a segment out of reach of an index. */
  lemma RenamedIsSuffix(b: Backups, k: nat, n: nat)
    requires k in b && k >= 1 && k + 1 !in b
    ensures IsSuffix(Older(Renamed(b, k), n), Older(b, n))
  {
    var c := Renamed(b, k);
    if n < k {
      OlderAgrees(b, c, n);
      SuffixOfConcat([], Older(b, n));
      assert [] + Older(b, n) == Older(b, n);
    } else if n == k {
      OlderAgrees(b, c, k - 1);
      OlderBelow(b, k - 1, k);
    } else {
      RenameUpTo(b, k, n);
      SuffixOfConcat([], Older(b, n));
      assert [] + Older(b, n) == Older(b, n);
    }
  }

  lemma RenameHasRoom(b: Backups, keys: set<nat>, k: nat)
    requires HaveRoom(b, keys) && k in keys && forall j | j in keys :: j <= k
    ensures k + 1 !in b && HaveRoom(Renamed(b, k), keys - {k})
  {
  }

  /** However far a shift gets, no rename overwrites a segment, the lines are the same, and segments can
      only get out of reach of an index. */
  lemma {:induction false} ShiftKeeps(b: Backups, keys: set<nat>, c: nat, active: Option<Segment>, n: nat)
    requires HaveRoom(b, keys) && NoEmptyBackup(b)
    ensures var s := ShiftedFrom(b, keys, c);
            && NoEmptyBackup(s) && AllLines(s, active) == AllLines(b, active)
            && IsSuffix(Older(s, n), Older(b, n))
    decreases c
  {
    if c == 0 || keys == {} {
      SuffixOfConcat([], Older(b, n));
      assert [] + Older(b, n) == Older(b, n);
    } else {
      var k := Highest(keys);
      RenameHasRoom(b, keys, k);
      RenameKeepsLines(b, active, k);
      RenamedIsSuffix(b, k, n);
      var r := Renamed(b, k);
      assert NoEmptyBackup(r);
      ShiftKeeps(r, keys - {k}, c - 1, active, n);
      SuffixOfSuffix(Older(ShiftedFrom(b, keys, c), n), Older(r, n), Older(b, n));
    }
  }

  /** A complete shift moves every segment up by one index. */
  lemma {:induction false} ShiftedAt(b: Backups, keys: set<nat>, c: nat, j: nat)
    requires keys <= b.Keys && c >= |keys|
    ensures var s, moved := ShiftedFrom(b, keys, c), j >= 1 && j - 1 in keys;
            && (j in s <==> moved || (j in b && j !in keys))
            && (j in s ==> s[j] == if moved then b[j - 1] else b[j])
    decreases c
  {
    if keys != {} {
      var k := Highest(keys);
      ShiftedAt(Renamed(b, k), keys - {k}, c - 1, j);
    }
  }

  /** All segments moved, and the active file behind them as segment 1. */
  ghost function Rotated(b: Backups, active: Segment): Backups {
    Shifted(b, |b.Keys|)[1 := active]
  }

  lemma {:induction false} OlderOfRotated(b: Backups, active: Segment, n: nat)
    requires 0 !in b
    ensures Older(Rotated(b, active), n + 1) == Older(b, n) + active
  {
    var c := Rotated(b, active);
    ShiftedAt(b, b.Keys, |b.Keys|, n + 1);
    if n == 0 {
      ShiftedAt(b, b.Keys, |b.Keys|, 0);
      assert Older(c, 0) == [];
    } else {
      OlderOfRotated(b, active, n - 1);
      if n in b {
        assert b[n] + (Older(b, n - 1) + active) == (b[n] + Older(b, n - 1)) + active;
      }
    }
  }

  predicate Within(n: nat, limit: Option<nat>) {
    limit.None? || n <= limit.value
  }

  predicate IsBefore(s: Segment, first: int) {
    forall e | e in s :: e.sequence < first
  }

  /** Everything beyond a limit lies before an anchor. */
  predicate OldIsBefore(b: Backups, limit: Option<nat>, first: int) {
    forall k | k in b && !Within(k, limit) :: IsBefore(b[k], first)
  }

  /** The indices a backup limit does not allow. */
  function Beyond(b: Backups, limit: Option<nat>): set<nat> {
    set k | k in b && !Within(k, limit)
  }

  ghost function Lowest(s: set<nat>): (m: nat)
    requires s != {}
    ensures m in s && forall k | k in s :: m <= k
  {
    var x :| x in s;
    if s == {x} then x
    else
      var m := Lowest(s - {x});
      assert forall k | k in s :: k == x || k in s - {x};
      if x < m then x else m
  }

  /** The segments after the first `c` unlinks of those beyond the limit, lowest index first. */
  ghost function Pruned(b: Backups, limit: Option<nat>, c: nat): Backups
    decreases c
  {
    if c == 0 || Beyond(b, limit) == {} then b else Pruned(b - {Lowest(Beyond(b, limit))}, limit, c - 1)
  }

  /** More unlinks than segments beyond the limit change nothing. */
  lemma PrunedBeyond(b: Backups, limit: Option<nat>, c: nat)
    requires c >= |Beyond(b, limit)|
    ensures Pruned(b, limit, c) == Pruned(b, limit, |Beyond(b, limit)|)
  {
    PrunedAll(b, limit, c);
    PrunedAll(b, limit, |Beyond(b, limit)|);
  }

  lemma {:induction false} PrunedAll(b: Backups, limit: Option<nat>, c: nat)
    requires c >= |Beyond(b, limit)|
    ensures Pruned(b, limit, c) == b - Beyond(b, limit)
    decreases c
  {
    var gone := Beyond(b, limit);
    if gone == {} {
      assert b - gone == b;
    } else {
      var k := Lowest(gone);
      assert Beyond(b - {k}, limit) == gone - {k};
      PrunedAll(b - {k}, limit, c - 1);
      assert b - {k} - (gone - {k}) == b - gone;
    }
  }

  /** The highest segment holds the oldest lines. */
  lemma TakeHighest(b: Backups, active: Option<Segment>, k: nat)
    requires k in b && forall j | j in b :: j <= k
    ensures AllLines(b, active) == b[k] + AllLines(b - {k}, active)
  {
    AnyBound(b, k);
    AnyBound(b - {k}, k);
    HighestFirst(b, k);
    assert b[k] + Older(b - {k}, k) + Lines(active) == b[k] + (Older(b - {k}, k) + Lines(active));
  }

  lemma HighestFirst(b: Backups, k: nat)
    requires k in b
    ensures Older(b, k) == b[k] + Older(b - {k}, k)
  {
    if k > 0 {
      OlderAgrees(b, b - {k}, k - 1);
    }
  }

  /** The segments up to `n` are the youngest part of the log. */
  lemma {:induction false} SplitAt(b: Backups, n: nat, m: nat) returns (older: Segment)
    requires n <= m
    ensures Older(b, m) == older + Older(b, n)
    ensures forall k, e | k in b && n < k <= m && e in b[k] :: e in older
  {
    older := [];
    if n < m {
      older := SplitAt(b, n, m - 1);
      if m in b {
        assert b[m] + (older + Older(b, n)) == (b[m] + older) + Older(b, n);
        older := b[m] + older;
      }
    }
  }

  lemma SegmentIsThere(b: Backups, n: nat, k: nat, e: Entry)
    requires k in b && k <= n && e in b[k]
    ensures e in Older(b, n)
  {
    if k < n {
      SegmentIsThere(b, n - 1, k, e);
    }
  }

  // ---------------------------------------------------------------- the retained events

  /** The lines at or after an anchor. */
  function Kept(lines: Segment, anchor: int): Segment {
    if lines == [] then []
    else (if lines[0].sequence >= anchor then [lines[0]] else []) + Kept(lines[1..], anchor)
  }

  lemma {:induction false} KeptOfConcat(s: Segment, t: Segment, a: int)
    ensures Kept(s + t, a) == Kept(s, a) + Kept(t, a)
  {
    if s == [] {
      assert s + t == t;
    } else {
      var head := if s[0].sequence >= a then [s[0]] else [];
      assert (s + t)[0] == s[0] && (s + t)[1..] == s[1..] + t;
      KeptOfConcat(s[1..], t, a);
      assert head + (Kept(s[1..], a) + Kept(t, a)) == (head + Kept(s[1..], a)) + Kept(t, a);
    }
  }

  lemma KeptAll(s: Segment, a: int)
    requires forall e | e in s :: e.sequence >= a
    ensures Kept(s, a) == s
  {
  }

  lemma KeptNone(s: Segment, a: int)
    ensures Kept(s, a) == [] <==> forall e | e in s :: e.sequence < a
  {
  }

  /** Entries of a numbered log carry their own index. */
  predicate Numbered(all: seq<Entry>) {
    forall i | 0 <= i < |all| :: all[i].sequence == i
  }

  lemma LogIsNumbered(h: Hash, all: seq<Entry>, genesis: Digest)
    requires Chained(h, all, 0, genesis)
    ensures Numbered(all)
  {
    forall i: nat | i < |all| ensures all[i].sequence == i {
      assert LinkedAt(h, all, i, 0, genesis);
    }
  }

  // ---------------------------------------------------------------- verifying readers

  /** Verify lines against a running expectation; lines before the expected number are skipped. */
  function Scan(h: Hash, lines: Segment, expected: int, prev: Digest): Option<seq<Entry>> {
    if lines == [] then Some([])
    else if lines[0].sequence < expected then Scan(h, lines[1..], expected, prev)
    else if !Verifies(h, lines[0], expected, prev) then None
    else
      match Scan(h, lines[1..], expected + 1, lines[0].hash)
      case None => None
      case Some(rest) => Some([lines[0]] + rest)
  }

  /** Whatever the reader accepts is a chain from its anchor. */
  lemma {:induction false} ScanIsChained(h: Hash, lines: Segment, expected: int, prev: Digest)
    requires Scan(h, lines, expected, prev).Some?
    ensures Chained(h, Scan(h, lines, expected, prev).value, expected, prev)
  {
    if lines != [] {
      if lines[0].sequence < expected {
        ScanIsChained(h, lines[1..], expected, prev);
      } else {
        ScanIsChained(h, lines[1..], expected + 1, lines[0].hash);
        ChainFromHead(h, lines[0], Scan(h, lines[1..], expected + 1, lines[0].hash).value, expected, prev);
      }
    }
  }

  lemma ChainFromHead(h: Hash, e: Entry, rest: seq<Entry>, first: int, prev: Digest)
    requires Verifies(h, e, first, prev) && Chained(h, rest, first + 1, e.hash)
    ensures Chained(h, [e] + rest, first, prev)
  {
    forall i: nat | i < |[e] + rest| ensures LinkedAt(h, [e] + rest, i, first, prev) {
      assert i > 0 ==> LinkedAt(h, rest, i - 1, first + 1, e.hash);
    }
  }

  /** The reader gets through any lines whose retained part is a chain, whatever older lines remain. */
  lemma {:induction false} ScanFindsChain(h: Hash, lines: Segment, a: int, expected: int, prev: Digest)
    requires a <= expected && Chained(h, Kept(lines, a), expected, prev)
    ensures Scan(h, lines, expected, prev) == Some(Kept(lines, a))
  {
    if lines != [] {
      var rest := Kept(lines[1..], a);
      if lines[0].sequence < a {
        assert Kept(lines, a) == rest;
        ScanFindsChain(h, lines[1..], a, expected, prev);
      } else {
        assert Kept(lines, a) == [lines[0]] + rest;
        assert LinkedAt(h, Kept(lines, a), 0, expected, prev);
        ChainTail(h, lines[0], rest, expected, prev);
        ScanFindsChain(h, lines[1..], a, expected + 1, lines[0].hash);
      }
    }
  }

  lemma ChainTail(h: Hash, e: Entry, rest: seq<Entry>, first: int, prev: Digest)
    requires Chained(h, [e] + rest, first, prev)
    ensures Chained(h, rest, first + 1, e.hash)
  {
    var second := first + 1;
    forall i: nat | i < |rest| ensures LinkedAt(h, rest, i, second, e.hash) {
      assert LinkedAt(h, [e] + rest, i + 1, first, prev);
    }
  }

  lemma SuffixChained(h: Hash, all: seq<Entry>, genesis: Digest, a: nat)
    requires Chained(h, all, 0, genesis) && a <= |all|
    ensures Chained(h, all[a..], a, HashBefore(all, a, genesis))
  {
    forall i: nat | i < |all[a..]| ensures LinkedAt(h, all[a..], i, a, HashBefore(all, a, genesis)) {
      assert LinkedAt(h, all, a + i, 0, genesis);
    }
  }

  /** The events end where the state says, or both are empty. */
  predicate Ends(events: seq<Entry>, st: State) {
    if events == [] then st.last < st.first
    else events[|events| - 1].sequence == st.last && events[|events| - 1].hash == st.lastHash
  }

  /** The first event with a given number. */
  function Checkpoint(events: seq<Entry>, n: int): Option<Entry> {
    if events == [] then None
    else if events[0].sequence == n then Some(events[0])
    else Checkpoint(events[1..], n)
  }

  predicate HasCheckpoint(events: seq<Entry>, st: State) {
    Checkpoint(events, st.last).Some? && Checkpoint(events, st.last).value.hash == st.lastHash
  }

  /** The state after reading: lines appended after the last recorded event are adopted when the
      recorded event is still among the events. */
  function Reconcile(events: seq<Entry>, st: State): Option<State> {
    if Ends(events, st) then Some(st)
    else if events == [] || events[|events| - 1].sequence < st.last then None
    else if st.last >= st.first && !HasCheckpoint(events, st) then None
    else Some(st.(last := events[|events| - 1].sequence, lastHash := events[|events| - 1].hash))
  }

  function Blank(genesis: Digest): State {
    State(0, genesis, -1, genesis)
  }

  /** The state a reader works from, with the events behind it; None when the files are refused. */
  function Load(h: Hash, lines: Segment, anyFile: bool, state: Option<State>, genesis: Digest)
    : Option<(State, seq<Entry>)>
  {
    match state
    case Some(st) =>
      (match Scan(h, lines, st.first, st.firstPrev)
       case None => None
       case Some(events) =>
         match Reconcile(events, st)
         case None => None
         case Some(st') => Some((st', events)))
    case None => if anyFile then None else Some((Blank(genesis), []))
  }

  // ---------------------------------------------------------------- scanning piece by piece

  /** Segments one after the other. */
  function Flatten(paths: seq<Segment>): Segment {
    if paths == [] then [] else Flatten(paths[..|paths| - 1]) + paths[|paths| - 1]
  }

  lemma FlattenSnoc(paths: seq<Segment>, s: Segment)
    ensures Flatten(paths + [s]) == Flatten(paths) + s
  {
    assert (paths + [s])[..|paths|] == paths;
  }

  lemma {:induction false} ScanSnoc(h: Hash, s: Segment, e: Entry, first: int, prev: Digest)
    requires Scan(h, s, first, prev).Some?
    ensures var ev := Scan(h, s, first, prev).value;
            var next := first + |ev|;
            Scan(h, s + [e], first, prev) ==
              if e.sequence < next then Some(ev)
              else if Verifies(h, e, next, HashBefore(ev, |ev|, prev)) then Some(ev + [e])
              else None
  {
    if s == [] {
      assert s + [e] == [e];
      assert [e][1..] == [] && [] + [e] == [e] + [];
      assert Scan(h, [e][1..], first + 1, e.hash) == Some([]) == Scan(h, [e][1..], first, prev);
    } else {
      assert (s + [e])[0] == s[0] && (s + [e])[1..] == s[1..] + [e];
      if s[0].sequence < first {
        ScanSnoc(h, s[1..], e, first, prev);
      } else {
        ScanSnoc(h, s[1..], e, first + 1, s[0].hash);
        var rest := Scan(h, s[1..], first + 1, s[0].hash).value;
        assert [s[0]] + (rest + [e]) == ([s[0]] + rest) + [e];
      }
    }
  }

  lemma {:induction false} ScanFailsEarly(h: Hash, s: Segment, t: Segment, first: int, prev: Digest)
    requires Scan(h, s, first, prev).None?
    ensures Scan(h, s + t, first, prev).None?
  {
    assert (s + t)[0] == s[0] && (s + t)[1..] == s[1..] + t;
    if s[0].sequence < first {
      ScanFailsEarly(h, s[1..], t, first, prev);
    } else if Verifies(h, s[0], first, prev) {
      ScanFailsEarly(h, s[1..], t, first + 1, s[0].hash);
    }
  }

  // ---------------------------------------------------------------- determinism of accepted logs

  /** Two logs read from one state file agree up to the recorded event, and entirely when their
      reconciled tails agree: a deletion, insertion, reordering or edit is refused. */
  lemma AcceptedLogsAgree(h: Hash, x: Segment, y: Segment, st: State, genesis: Digest)
    requires CollisionFree(h)
    requires Load(h, x, true, Some(st), genesis).Some? && Load(h, y, true, Some(st), genesis).Some?
    ensures var (sx, ex) := Load(h, x, true, Some(st), genesis).value;
            var (sy, ey) := Load(h, y, true, Some(st), genesis).value;
            && (st.last >= st.first ==>
                  && st.last - st.first < |ex| && st.last - st.first < |ey|
                  && ex[..st.last - st.first + 1] == ey[..st.last - st.first + 1])
            && (sx == sy ==> ex == ey)
  {
    var (sx, ex) := Load(h, x, true, Some(st), genesis).value;
    var (sy, ey) := Load(h, y, true, Some(st), genesis).value;
    ScanIsChained(h, x, st.first, st.firstPrev);
    ScanIsChained(h, y, st.first, st.firstPrev);
    if st.last >= st.first {
      RecordedIsThere(h, ex, st);
      RecordedIsThere(h, ey, st);
      AgreeUpTo(h, ex, ey, st.first, st.firstPrev, st.last - st.first);
    }
    if sx == sy {
      ReconciledEnds(h, ex, st);
      ReconciledEnds(h, ey, st);
      ChainDetermined(h, ex, ey, st.first, st.firstPrev);
    }
  }

  lemma NumbersOfChain(h: Hash, es: seq<Entry>, first: int, prev: Digest)
    requires Chained(h, es, first, prev)
    ensures forall i | 0 <= i < |es| :: es[i].sequence == first + i
  {
    forall i: nat | i < |es| ensures es[i].sequence == first + i {
      assert LinkedAt(h, es, i, first, prev);
    }
  }

  lemma CheckpointIsThere(es: seq<Entry>, n: int) returns (i: nat)
    requires Checkpoint(es, n).Some?
    ensures i < |es| && es[i].sequence == n && Checkpoint(es, n) == Some(es[i])
  {
    if es[0].sequence == n {
      i := 0;
    } else {
      i := CheckpointIsThere(es[1..], n);
      i := i + 1;
    }
  }

  /** The recorded event is among the accepted ones, at its own place. */
  lemma RecordedIsThere(h: Hash, es: seq<Entry>, st: State)
    requires Chained(h, es, st.first, st.firstPrev) && Reconcile(es, st).Some? && st.last >= st.first
    ensures st.last - st.first < |es| && es[st.last - st.first].hash == st.lastHash
  {
    NumbersOfChain(h, es, st.first, st.firstPrev);
    if !Ends(es, st) {
      var i := CheckpointIsThere(es, st.last);
    }
  }

  /** The reconciled state names the last accepted event. */
  lemma ReconciledEnds(h: Hash, es: seq<Entry>, st: State)
    requires Chained(h, es, st.first, st.firstPrev) && Reconcile(es, st).Some?
    ensures var st' := Reconcile(es, st).value;
            if es == [] then st' == st && st.last < st.first
            else st'.last == st.first + |es| - 1 && st'.lastHash == es[|es| - 1].hash
  {
    NumbersOfChain(h, es, st.first, st.firstPrev);
  }
}
