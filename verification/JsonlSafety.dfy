/** What the durable file operations of the JSONL sink keep, whatever backup limits the processes
    that share the log work under, and what decides whether the log can be read. */
module JsonlSafety {
  import opened Basics
  import opened AuditChain
  import opened JsonlLog

  predicate StateMatches(st: State, all: seq<Entry>, genesis: Digest) {
    && 0 <= st.first <= st.last < |all|
    && st.firstPrev == HashBefore(all, st.first, genesis)
    && st.lastHash == all[st.last].hash
  }

  predicate EndsWith(lines: Segment, e: Entry) {
    lines != [] && lines[|lines| - 1] == e
  }

  predicate IsEntry(e: Entry, all: seq<Entry>) {
    0 <= e.sequence < |all| && e == all[e.sequence]
  }

  predicate InOrder(lines: Segment, i: int, j: int) {
    0 <= i < j < |lines| ==> lines[i].sequence < lines[j].sequence
  }

  ghost predicate Increasing(lines: Segment) {
    forall i, j :: InOrder(lines, i, j)
  }

  predicate EntryAt(lines: Segment, i: int, all: seq<Entry>) {
    0 <= i < |lines| ==> IsEntry(lines[i], all)
  }

  /** Entries of the log in its order, the newest one last; some may be missing. */
  ghost predicate PartOf(lines: Segment, all: seq<Entry>) {
    && all != [] && EndsWith(lines, all[|all| - 1])
    && (forall i :: EntryAt(lines, i, all))
    && Increasing(lines)
  }

  /** The lines of the active file and of the segments up to an index. */
  function Young(b: Backups, active: Option<Segment>, n: nat): Segment {
    Older(b, n) + Lines(active)
  }

  /** From the first of them on, these lines are the whole log. */
  ghost predicate Whole(b: Backups, active: Option<Segment>, n: nat, all: seq<Entry>) {
    IsSuffix(Young(b, active, n), all)
  }

  /** The lines still hold every appended event from the anchor on. */
  ghost predicate Holds(lines: Segment, first: int, all: seq<Entry>) {
    0 <= first <= |all| && |Kept(lines, first)| == |all| - first && IsSuffix(Kept(lines, first), all)
  }

  /** The files of a log whose appends so far are `all`.  Before the first state file at most the
      first append can have happened. */
  ghost predicate Sound(h: Hash, genesis: Digest, f: Files, all: seq<Entry>) {
    match f.state
    case None => Chained(h, all, 0, genesis) && f.backups == map[] && Lines(f.active) == all && |all| <= 1
    case Some(st) =>
      && Chained(h, all, 0, genesis)
      && StateMatches(st, all, genesis)
      && NoEmptyBackup(f.backups)
      && Whole(f.backups, f.active, 0, all)
      && PartOf(AllLines(f.backups, f.active), all)
  }

  /** Nothing is missing from the anchor on; without a state file there must be no file at all. */
  ghost predicate Readable(f: Files, all: seq<Entry>) {
    match f.state
    case None => f.active.None?
    case Some(st) => Holds(AllLines(f.backups, f.active), st.first, all)
  }

  // ---------------------------------------------------------------- wholeness

  predicate Consecutive(y: Segment) {
    forall i, j | 0 <= i < j < |y| :: y[j].sequence - y[i].sequence == j - i
  }

  /** The later lines of a part are a part. */
  lemma TailIsPart(x: Segment, y: Segment, all: seq<Entry>)
    requires PartOf(x + y, all) && y != []
    ensures PartOf(y, all)
  {
    var lines := x + y;
    forall i ensures EntryAt(y, i, all) {
      assert EntryAt(lines, |x| + i, all);
    }
    forall i, j ensures InOrder(y, i, j) {
      assert InOrder(lines, |x| + i, |x| + j);
    }
  }

  lemma SuffixIffConsecutive(y: Segment, all: seq<Entry>)
    requires PartOf(y, all) && Numbered(all)
    ensures IsSuffix(y, all) <==> Consecutive(y)
  {
    SuffixIs(y, all);
    if Consecutive(y) {
      assert EntryAt(y, 0, all) && EntryAt(y, |y| - 1, all);
      forall i | 0 <= i < |y| ensures y[i] == all[|all| - |y| + i] {
        assert EntryAt(y, i, all);
      }
      assert y == all[|all| - |y|..];
    }
    if IsSuffix(y, all) {
      forall i | 0 <= i < |y| ensures y[i].sequence == |all| - |y| + i {
        assert y[i] == all[|all| - |y| + i];
      }
    }
  }

  /** Wholeness can be told from the numbers on the lines alone. */
  lemma WholeIffConsecutive(h: Hash, genesis: Digest, f: Files, all: seq<Entry>, n: nat)
    requires Sound(h, genesis, f, all) && f.state.Some?
    ensures Whole(f.backups, f.active, n, all) <==> Consecutive(Young(f.backups, f.active, n))
  {
    var y := Young(f.backups, f.active, n);
    LogIsNumbered(h, all, genesis);
    var older := SplitYoung(f.backups, f.active, n);
    if y != [] {
      TailIsPart(older, y, all);
      SuffixIffConsecutive(y, all);
    }
  }

  // ---------------------------------------------------------------- rename

  lemma SuffixOfLines(x: Segment, y: Segment, z: Segment)
    requires IsSuffix(x, y)
    ensures IsSuffix(x + z, y + z)
  {
    forall i ensures SameFromEnd(x + z, y + z, i) {
      assert SameFromEnd(x, y, i - |z|);
    }
  }
  
  // ---------------------------------------------------------------- anchor

  lemma SplitYoung(b: Backups, active: Option<Segment>, n: nat) returns (older: Segment)
    ensures AllLines(b, active) == older + Young(b, active, n)
    ensures forall k, e | k in b && n < k && e in b[k] :: e in older
  {
    var m := MaxKey(b.Keys);
    if n <= m {
      older := SplitAt(b, n, m);
      assert older + Older(b, n) + Lines(active) == older + (Older(b, n) + Lines(active));
    } else {
      older := [];
      AnyBound(b, n);
    }
  }

  /** Anchoring at the first young line keeps exactly the young ones. */
  lemma KeptFromYoung(older: Segment, young: Segment)
    requires Increasing(older + young) && young != []
    ensures Kept(older + young, young[0].sequence) == young
    ensures forall e | e in older :: e.sequence < young[0].sequence
  {
    var lines, a := older + young, young[0].sequence;
    forall e | e in older ensures e.sequence < a {
      var i :| 0 <= i < |older| && older[i] == e;
      assert InOrder(lines, i, |older|);
    }
    forall e | e in young ensures e.sequence >= a {
      var i :| 0 <= i < |young| && young[i] == e;
      assert InOrder(lines, |older|, |older| + i);
    }
    KeptOfConcat(older, young, a);
    KeptNone(older, a);
    KeptAll(young, a);
  }

  lemma SuffixIffHolds(older: Segment, young: Segment, all: seq<Entry>)
    requires PartOf(older + young, all) && Numbered(all) && young != []
    ensures IsEntry(young[0], all)
    ensures Holds(older + young, young[0].sequence, all) <==> IsSuffix(young, all)
  {
    TailIsPart(older, young, all);
    KeptFromYoung(older, young);
    assert EntryAt(young, 0, all);
    if IsSuffix(young, all) {
      assert SameFromEnd(young, all, |young|);
    }
  }

  /** After anchoring at the first line that pruning leaves, the log is readable exactly when the
      lines that pruning leaves are whole, and everything else lies before the anchor. */
  lemma AnchorIff(b: Backups, active: Option<Segment>, n: nat, all: seq<Entry>)
    requires PartOf(AllLines(b, active), all) && Numbered(all) && Young(b, active, n) != []
    ensures var e := Young(b, active, n)[0];
            && IsEntry(e, all)
            && (Holds(AllLines(b, active), e.sequence, all) <==> Whole(b, active, n, all))
            && OldIsBefore(b, Some(n), e.sequence)
  {
    var older := SplitYoung(b, active, n);
    KeptFromYoung(older, Young(b, active, n));
    SuffixIffHolds(older, Young(b, active, n), all);
    forall k | k in b && n < k ensures IsBefore(b[k], Young(b, active, n)[0].sequence) {
    }
  }

  // ---------------------------------------------------------------- unlink

  /** A segment can be cut out of the lines. */
  lemma {:induction false} CutOut(b: Backups, k: nat, n: nat) returns (x: Segment, y: Segment)
    requires k in b && k <= n
    ensures Older(b, n) == x + b[k] + y && Older(b - {k}, n) == x + y
  {
    if n == k {
      x, y := [], Older(b - {k}, k);
      HighestFirst(b, k);
    } else {
      x, y := CutOut(b, k, n - 1);
      if n in b {
        assert b[n] + (x + b[k] + y) == b[n] + x + b[k] + y;
        assert b[n] + (x + y) == b[n] + x + y;
        x := b[n] + x;
      }
    }
  }

  /** The lines without a middle part that lies before an anchor. */
  lemma CutIsPart(x: Segment, cut: Segment, z: Segment, first: int, all: seq<Entry>)
    requires PartOf(x + cut + z, all) && Numbered(all) && 0 <= first < |all|
    requires IsBefore(cut, first)
    ensures PartOf(x + z, all)
  {
    var lines, rest := x + cut + z, x + z;
    if z == [] && cut != [] {
      assert false;
    }
    forall i ensures EntryAt(rest, i, all) {
      assert EntryAt(lines, if i < |x| then i else i + |cut|, all);
    }
    forall i, j ensures InOrder(rest, i, j) {
      assert InOrder(lines, if i < |x| then i else i + |cut|, if j < |x| then j else j + |cut|);
    }
  }

  lemma CutIsKept(x: Segment, cut: Segment, z: Segment, first: int)
    requires IsBefore(cut, first)
    ensures Kept(x + z, first) == Kept(x + cut + z, first)
  {
    KeptOfConcat(x + cut, z, first);
    KeptOfConcat(x, cut, first);
    KeptOfConcat(x, z, first);
    KeptNone(cut, first);
  }

  /** Removing a segment that lies before the anchor changes nothing about what can be read, and
      nothing about the segments below it. */
  lemma UnlinkKeeps(b: Backups, active: Option<Segment>, first: int, all: seq<Entry>, k: nat)
    requires PartOf(AllLines(b, active), all) && Numbered(all) && 0 <= first < |all|
    requires k in b && IsBefore(b[k], first)
    ensures PartOf(AllLines(b - {k}, active), all)
    ensures Holds(AllLines(b - {k}, active), first, all) <==> Holds(AllLines(b, active), first, all)
    ensures forall n: nat | n < k :: Young(b - {k}, active, n) == Young(b, active, n)
  {
    var n := MaxKey(b.Keys);
    AnyBound(b - {k}, n);
    var x, y := CutOut(b, k, n);
    var z := y + Lines(active);
    assert AllLines(b, active) == x + b[k] + z && AllLines(b - {k}, active) == x + z;
    CutIsPart(x, b[k], z, first, all);
    CutIsKept(x, b[k], z, first);
    forall m: nat | m < k ensures Young(b - {k}, active, m) == Young(b, active, m) {
      OlderAgrees(b, b - {k}, m);
    }
  }

  // ---------------------------------------------------------------- append

  lemma SuffixGrows(s: Segment, all: seq<Entry>, e: Entry)
    ensures IsSuffix(s + [e], all + [e]) <==> IsSuffix(s, all)
  {
    if IsSuffix(s, all) {
      SuffixOfLines(s, all, [e]);
    }
    if IsSuffix(s + [e], all + [e]) {
      forall i ensures SameFromEnd(s, all, i) {
        assert SameFromEnd(s + [e], all + [e], i + 1);
      }
    }
  }

  lemma PartGrows(lines: Segment, all: seq<Entry>, e: Entry)
    requires PartOf(lines, all) && e.sequence == |all|
    ensures PartOf(lines + [e], all + [e])
  {
    forall i ensures EntryAt(lines + [e], i, all + [e]) {
      assert EntryAt(lines, i, all);
    }
    forall i, j ensures InOrder(lines + [e], i, j) {
      assert InOrder(lines, i, j) && EntryAt(lines, i, all);
    }
  }

  lemma HoldingGrows(lines: Segment, first: int, all: seq<Entry>, e: Entry)
    requires 0 <= first <= |all| && e.sequence == |all|
    ensures Holds(lines + [e], first, all + [e]) <==> Holds(lines, first, all)
  {
    KeptOfConcat(lines, [e], first);
    assert Kept([e], first) == [e];
    SuffixGrows(Kept(lines, first), all, e);
  }

  /** An append is one more line: what is readable stays so, and what is not does not become so. */
  lemma AppendKeeps(b: Backups, active: Option<Segment>, first: int, all: seq<Entry>, e: Entry)
    requires PartOf(AllLines(b, active), all) && 0 <= first < |all| && e.sequence == |all|
    ensures var active' := Some(Lines(active) + [e]);
            && PartOf(AllLines(b, active'), all + [e])
            && (Holds(AllLines(b, active'), first, all + [e]) <==> Holds(AllLines(b, active), first, all))
  {
    var lines := AllLines(b, active);
    assert AllLines(b, Some(Lines(active) + [e])) == lines + [e];
    PartGrows(lines, all, e);
    HoldingGrows(lines, first, all, e);
  }

  lemma WholeGrows(b: Backups, active: Option<Segment>, n: nat, all: seq<Entry>, e: Entry)
    ensures Whole(b, Some(Lines(active) + [e]), n, all + [e]) <==> Whole(b, active, n, all)
  {
    assert Young(b, Some(Lines(active) + [e]), n) == Young(b, active, n) + [e];
    SuffixGrows(Young(b, active, n), all, e);
  }

  lemma NoBackups(active: Option<Segment>)
    ensures AllLines(map[], active) == Lines(active)
  {
    AnyBound(map[], 0);
  }

  /** Creating the active file keeps the files sound: it has no line yet. */
  lemma CreatedIsSound(h: Hash, genesis: Digest, f: Files, all: seq<Entry>)
    requires Sound(h, genesis, f, all) && f.active.None?
    ensures Sound(h, genesis, f.(active := Some([])), all)
    ensures f.state.Some? ==> (Readable(f.(active := Some([])), all) <==> Readable(f, all))
  {
  }

  /** An append keeps the files sound, even before any state file exists. */
  lemma AppendedIsSound(h: Hash, genesis: Digest, f: Files, all: seq<Entry>, e: Entry)
    requires Sound(h, genesis, f, all) && (f.state.None? ==> all == [])
    requires Verifies(h, e, |all|, HashBefore(all, |all|, genesis))
    ensures Sound(h, genesis, f.(active := Some(Lines(f.active) + [e])), all + [e])
  {
    assert Chained(h, all + [e], 0, genesis) by {
      ChainGrows(h, all, 0, genesis, e);
    }
    WholeGrows(f.backups, f.active, 0, all, e);
    if f.state.Some? {
      AppendKeeps(f.backups, f.active, f.state.value.first, all, e);
      assert StateMatches(f.state.value, all + [e], genesis);
    }
  }

  lemma AppendedIsReadable(f: Files, all: seq<Entry>, e: Entry)
    requires f.state.Some? && 0 <= f.state.value.first < |all| && e.sequence == |all|
    requires PartOf(AllLines(f.backups, f.active), all)
    ensures Readable(f.(active := Some(Lines(f.active) + [e])), all + [e]) <==> Readable(f, all)
  {
    AppendKeeps(f.backups, f.active, f.state.value.first, all, e);
  }

  /** Recording the newest append keeps the files sound and keeps the anchor. */
  lemma RecordedIsSound(h: Hash, genesis: Digest, f: Files, all: seq<Entry>, st: State)
    requires Sound(h, genesis, f, all) && all != [] && st == Recorded(st, all, genesis)
    requires if f.state.Some? then st.first == f.state.value.first && st.firstPrev == f.state.value.firstPrev
             else st.first == 0 && st.firstPrev == genesis
    ensures Sound(h, genesis, f.(state := Some(st)), all)
    ensures Readable(f.(state := Some(st)), all) <==> f.state.None? || Readable(f, all)
  {
    if f.state.None? {
      assert LinkedAt(h, all, 0, 0, genesis);
      assert all == [all[0]] && all[0..] == all;
      NoBackups(f.active);
      assert Kept(all, 0) == all;
      SuffixIs(all, all);
    }
  }

  // ---------------------------------------------------------------- load

  /** The state that records every append. */
  function Recorded(st: State, all: seq<Entry>, genesis: Digest): State {
    st.(last := |all| - 1, lastHash := HashBefore(all, |all|, genesis))
  }

  lemma CheckpointOfLog(all: seq<Entry>, a: nat, n: nat)
    requires Numbered(all) && a <= n < |all|
    ensures Checkpoint(all[a..], n) == Some(all[n])
    decreases n - a
  {
    if a < n {
      assert all[a..][1..] == all[a + 1..];
      CheckpointOfLog(all, a + 1, n);
    }
  }

  lemma RestIsAfter(lines: Segment)
    requires Increasing(lines) && lines != []
    ensures Increasing(lines[1..])
    ensures forall e | e in lines[1..] :: e.sequence > lines[0].sequence
  {
    forall i, j ensures InOrder(lines[1..], i, j) {
      assert InOrder(lines, i + 1, j + 1);
    }
    forall e | e in lines[1..] ensures e.sequence > lines[0].sequence {
      var i :| 0 <= i < |lines[1..]| && lines[1..][i] == e;
      assert InOrder(lines, 0, i + 1);
    }
  }

  /** On increasing lines the reader returns what it keeps, if it returns anything. */
  lemma {:induction false} ScanKeeps(h: Hash, lines: Segment, expected: int, prev: Digest)
    requires Increasing(lines) && Scan(h, lines, expected, prev).Some?
    ensures Scan(h, lines, expected, prev) == Some(Kept(lines, expected))
  {
    if lines != [] {
      RestIsAfter(lines);
      if lines[0].sequence < expected {
        ScanKeeps(h, lines[1..], expected, prev);
        assert [] + Kept(lines[1..], expected) == Kept(lines[1..], expected);
      } else {
        ScanKeeps(h, lines[1..], expected + 1, lines[0].hash);
        KeptAll(lines[1..], expected + 1);
        KeptAll(lines[1..], expected);
      }
    }
  }

  lemma {:induction false} KeptIsPart(lines: Segment, first: int, all: seq<Entry>)
    requires PartOf(lines, all) && 0 <= first < |all| && Numbered(all)
    ensures EndsWith(Kept(lines, first), all[|all| - 1])
    ensures forall i :: EntryAt(Kept(lines, first), i, all)
    decreases |lines|
  {
    assert EntryAt(lines, 0, all);
    var rest := lines[1..];
    assert lines == [lines[0]] + rest;
    var kept := Kept(lines, first);
    if rest == [] {
      assert Kept(rest, first) == [] && kept == [lines[0]];
    } else {
      TailIsPart([lines[0]], rest, all);
      KeptIsPart(rest, first, all);
      forall i ensures EntryAt(kept, i, all) {
        assert EntryAt(Kept(rest, first), i, all) && EntryAt(Kept(rest, first), i - 1, all);
      }
    }
  }

  /** The reader accepts the lines exactly when nothing is missing from the anchor on. */
  lemma ScanIff(h: Hash, genesis: Digest, lines: Segment, first: int, all: seq<Entry>)
    requires Chained(h, all, 0, genesis) && PartOf(lines, all) && 0 <= first < |all|
    ensures var r := Scan(h, lines, first, HashBefore(all, first, genesis));
            if Holds(lines, first, all) then r == Some(all[first..]) else r.None?
  {
    SuffixIs(Kept(lines, first), all);
    var prev := HashBefore(all, first, genesis);
    LogIsNumbered(h, all, genesis);
    if Holds(lines, first, all) {
      SuffixChained(h, all, genesis, first);
      ScanFindsChain(h, lines, first, first, prev);
    } else if Scan(h, lines, first, prev).Some? {
      ScanKeeps(h, lines, first, prev);
      ScanIsChained(h, lines, first, prev);
      KeptIsPart(lines, first, all);
      var es := Kept(lines, first);
      NumbersOfChain(h, es, first, prev);
      assert EntryAt(es, |es| - 1, all);
      forall i | 0 <= i < |es| ensures es[i] == all[first..][i] {
        assert EntryAt(es, i, all);
      }
      assert false;
    }
  }

  lemma ReconcilesLog(all: seq<Entry>, st: State, genesis: Digest)
    requires Numbered(all) && StateMatches(st, all, genesis)
    ensures Reconcile(all[st.first..], st) == Some(Recorded(st, all, genesis))
  {
    CheckpointOfLog(all, st.first, st.last);
    var events := all[st.first..];
    assert events[|events| - 1] == all[|all| - 1];
  }

  /** So the files load exactly when they are readable, and then with every append from the anchor on. */
  lemma LoadIff(h: Hash, genesis: Digest, f: Files, all: seq<Entry>)
    requires Sound(h, genesis, f, all) && f.state.Some?
    ensures var r := Load(h, AllLines(f.backups, f.active), true, f.state, genesis);
            if Readable(f, all) then r == Some((Recorded(f.state.value, all, genesis), all[f.state.value.first..]))
            else r.None?
  {
    ScanIff(h, genesis, AllLines(f.backups, f.active), f.state.value.first, all);
    LogIsNumbered(h, all, genesis);
    ReconcilesLog(all, f.state.value, genesis);
  }

  /** The newest line is the newest event. */
  lemma TailIsNewest(h: Hash, genesis: Digest, lines: Segment, all: seq<Entry>)
    requires Chained(h, all, 0, genesis) && PartOf(lines, all)
    ensures lines != [] && lines[|lines| - 1] == all[|all| - 1]
    ensures Verifies(h, all[|all| - 1], |all| - 1, all[|all| - 1].prev)
  {
    assert LinkedAt(h, all, |all| - 1, 0, genesis);
  }
}
