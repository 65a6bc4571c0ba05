/** Continuity of an anchored history: a candidate is compared with the protected sequence. */
module Anchors {
  import opened Basics

  type BundleId(==, !new)
  type Digest(==, !new)
  type SequenceId(==, !new)

  /** What names a bundle, wherever it stands. */
  datatype Identity = Identity(bundleId: BundleId, digest: Digest)

  datatype Entry = Entry(position: int, bundle: Identity)

  datatype Request = Request(sequenceId: SequenceId, tenant: Digest, entries: seq<Entry>, subject: Identity)

  datatype Verdict = Unavailable | SubjectMissing | Passed | DeletionDetected | Reordered | Mismatch

  const MAX_ENTRIES := 4096

  function Bundles(entries: seq<Entry>): (s: seq<Identity>)
    ensures |s| == |entries| && forall i | 0 <= i < |s| :: s[i] == entries[i].bundle
  {
    seq(|entries|, i requires 0 <= i < |entries| => entries[i].bundle)
  }

  predicate DistinctBundles(s: seq<Identity>) {
    forall i, j | 0 <= i < j < |s| :: s[i].bundleId != s[j].bundleId
  }

  predicate WellFormed(entries: seq<Entry>) {
    (forall i | 0 <= i < |entries| :: entries[i].position == i + 1) && DistinctBundles(Bundles(entries))
  }

  method ValidateAnchorEntries(entries: seq<Entry>) returns (ok: bool)
    ensures ok <==> WellFormed(entries)
  {
    var seen: set<BundleId> := {};
    var s := Bundles(entries);
    for k := 0 to |entries|
      invariant forall i | 0 <= i < k :: entries[i].position == i + 1 && s[i].bundleId in seen
      invariant forall b | b in seen :: exists i | 0 <= i < k :: s[i].bundleId == b
      invariant DistinctBundles(s[..k])
    {
      if entries[k].position != k + 1 || s[k].bundleId in seen {
        return false;
      }
      seen := seen + {s[k].bundleId};
      assert s[..k + 1] == s[..k] + [s[k]];
    }
    assert s[..|s|] == s;
    ok := true;
  }

  // ---------------------------------------------------------------- subsequences

  /** `at` places each element of `c` in `p`, in order. */
  predicate IsPlacement(c: seq<Identity>, p: seq<Identity>, at: seq<nat>) {
    && |at| == |c|
    && (forall i | 0 <= i < |c| :: at[i] < |p| && p[at[i]] == c[i])
    && (forall i, j | 0 <= i < j < |c| :: at[i] < at[j])
  }

  ghost predicate IsSubsequence(c: seq<Identity>, p: seq<Identity>) {
    exists at :: IsPlacement(c, p, at)
  }

  /** Match each element at its first chance. */
  predicate Greedy(c: seq<Identity>, p: seq<Identity>)
    decreases |p|
  {
    if c == [] then true
    else if p == [] then false
    else if c[0] == p[0] then Greedy(c[1..], p[1..])
    else Greedy(c, p[1..])
  }

  lemma {:induction false} GreedyIsSound(c: seq<Identity>, p: seq<Identity>) returns (at: seq<nat>)
    requires Greedy(c, p)
    ensures IsPlacement(c, p, at)
    decreases |p|
  {
    at := [];
    if c != [] {
      if c[0] == p[0] {
        var rest := GreedyIsSound(c[1..], p[1..]);
        at := [0] + Shifted(rest);
      } else {
        var rest := GreedyIsSound(c, p[1..]);
        at := Shifted(rest);
      }
    }
  }

  /** The same places, one further on. */
  function Shifted(at: seq<nat>): (s: seq<nat>)
    ensures |s| == |at| && forall i | 0 <= i < |s| :: s[i] == at[i] + 1
  {
    seq(|at|, i requires 0 <= i < |at| => at[i] + 1)
  }

  lemma {:induction false} GreedyIsComplete(c: seq<Identity>, p: seq<Identity>, at: seq<nat>)
    requires IsPlacement(c, p, at)
    ensures Greedy(c, p)
    decreases |p|
  {
    if c != [] {
      assert p[at[0]] == c[0];
      var matched := c[0] == p[0];
      var c' := if matched then c[1..] else c;
      var at' := if matched then at[1..] else at;
      assert forall i | 0 <= i < |at'| :: at'[i] > 0;
      var shifted := seq(|at'|, i requires 0 <= i < |at'| => at'[i] - 1);
      GreedyIsComplete(c', p[1..], shifted);
    }
  }

  lemma GreedyIff(c: seq<Identity>, p: seq<Identity>)
    ensures Greedy(c, p) <==> IsSubsequence(c, p)
  {
    if Greedy(c, p) {
      var at := GreedyIsSound(c, p);
    }
    if IsSubsequence(c, p) {
      var at :| IsPlacement(c, p, at);
      GreedyIsComplete(c, p, at);
    }
  }

  /** The scan over one shared iterator finds a subsequence exactly when there is one. */
  method ScanSubsequence(candidate: seq<Entry>, protectedEntries: seq<Entry>) returns (found: bool)
    ensures found <==> IsSubsequence(Bundles(candidate), Bundles(protectedEntries))
  {
    ghost var c, p := Bundles(candidate), Bundles(protectedEntries);
    GreedyIff(c, p);
    var next := 0;
    assert c[0..] == c && p[0..] == p;
    for k := 0 to |candidate|
      invariant 0 <= next <= |protectedEntries|
      invariant Greedy(c, p) == Greedy(c[k..], p[next..])
    {
      while next < |protectedEntries| && protectedEntries[next].bundle != candidate[k].bundle
        invariant 0 <= next <= |protectedEntries|
        invariant Greedy(c, p) == Greedy(c[k..], p[next..])
      {
        assert p[next..][1..] == p[next + 1..];
        next := next + 1;
      }
      if next == |protectedEntries| {
        return false;
      }
      assert p[next..][1..] == p[next + 1..] && c[k..][1..] == c[k + 1..];
      next := next + 1;
    }
    found := true;
  }

  /** A subsequence of the same length is the whole sequence. */
  lemma FullPlacement(c: seq<Identity>, p: seq<Identity>, at: seq<nat>, i: nat)
    requires IsPlacement(c, p, at) && |c| == |p| && i < |c|
    ensures at[i] == i
  {
    AtLeast(c, p, at, i);
    AtMost(c, p, at, i);
  }

  lemma AtLeast(c: seq<Identity>, p: seq<Identity>, at: seq<nat>, i: nat)
    requires IsPlacement(c, p, at) && i < |c|
    ensures at[i] >= i
  {
    if i > 0 {
      AtLeast(c, p, at, i - 1);
    }
  }

  lemma AtMost(c: seq<Identity>, p: seq<Identity>, at: seq<nat>, i: nat)
    requires IsPlacement(c, p, at) && i < |c|
    ensures at[i] + (|c| - i) <= |p|
    decreases |c| - i
  {
    if i + 1 < |c| {
      AtMost(c, p, at, i + 1);
    }
  }

  lemma SameLengthSubsequence(c: seq<Identity>, p: seq<Identity>)
    requires IsSubsequence(c, p) && |c| == |p|
    ensures c == p
  {
    var at :| IsPlacement(c, p, at);
    forall i | 0 <= i < |c| ensures c[i] == p[i] {
      FullPlacement(c, p, at, i);
    }
  }

  // ---------------------------------------------------------------- permutations

  function Members(s: seq<Identity>): set<Identity> {
    set x | x in s
  }

  lemma CountOfDistinct(s: seq<Identity>, x: Identity)
    requires DistinctBundles(s)
    ensures multiset(s)[x] == if x in s then 1 else 0
  {
    if s != [] {
      var n := |s| - 1;
      assert s == s[..n] + [s[n]];
      CountOfDistinct(s[..n], x);
      assert x == s[n] ==> x !in s[..n];
    }
  }

  /** Without repetition, equal members and a permutation are the same thing. */
  lemma SameMembersIffPermutation(s: seq<Identity>, t: seq<Identity>)
    requires DistinctBundles(s) && DistinctBundles(t)
    ensures Members(s) == Members(t) <==> multiset(s) == multiset(t)
  {
    forall x ensures multiset(s)[x] == (if x in s then 1 else 0) && multiset(t)[x] == (if x in t then 1 else 0) {
      CountOfDistinct(s, x);
      CountOfDistinct(t, x);
    }
    if Members(s) == Members(t) {
      forall x ensures multiset(s)[x] == multiset(t)[x] {
        assert x in s <==> x in Members(s);
        assert x in t <==> x in Members(t);
      }
    }
    if multiset(s) == multiset(t) {
      forall x ensures x in Members(s) <==> x in Members(t) {
        assert multiset(s)[x] == multiset(t)[x];
      }
    }
  }

  // ---------------------------------------------------------------- the provider

  class AnchorProvider {
    const sequenceId: SequenceId
    const tenant: Digest
    var protectedEntries: seq<Entry>

    predicate Valid()
      reads this
    {
      WellFormed(protectedEntries) && |protectedEntries| <= MAX_ENTRIES
    }

    constructor (sequenceId: SequenceId, tenant: Digest)
      ensures Valid() && this.sequenceId == sequenceId && this.tenant == tenant && protectedEntries == []
    {
      this.sequenceId, this.tenant, protectedEntries := sequenceId, tenant, [];
    }

    /** Append one bundle; refused when the history is full or the bundle id is already in it. */
    method Append(bundle: Identity) returns (appended: bool)
      requires Valid()
      modifies this
      ensures Valid()
      ensures appended <==> |old(protectedEntries)| < MAX_ENTRIES
                            && forall i | 0 <= i < |old(protectedEntries)| ::
                                 old(protectedEntries)[i].bundle.bundleId != bundle.bundleId
      ensures protectedEntries == if appended then old(protectedEntries) + [Entry(|old(protectedEntries)| + 1, bundle)]
                                  else old(protectedEntries)
    {
      var entry := Entry(|protectedEntries| + 1, bundle);
      var updated := protectedEntries + [entry];
      if |updated| > MAX_ENTRIES {
        return false;
      }
      AppendIsWellFormed(protectedEntries, bundle);
      appended := ValidateAnchorEntries(updated);
      if appended {
        protectedEntries := updated;
      }
    }

    /** Classify a candidate history exactly. */
    method VerifyContinuity(q: Request) returns (verdict: Verdict)
      requires Valid() && WellFormed(q.entries) && q.entries != []
      ensures verdict == Unavailable <==> q.sequenceId != sequenceId || q.tenant != tenant || protectedEntries == []
      ensures verdict != Unavailable ==>
                var c, p := Bundles(q.entries), Bundles(protectedEntries);
                && (verdict == SubjectMissing <==> q.subject !in c)
                && (q.subject in c ==>
                      && (verdict == Passed <==> q.entries == protectedEntries)
                      && (verdict == Passed <==> c == p)
                      && (verdict == DeletionDetected <==> IsSubsequence(c, p) && c != p)
                      && (verdict == Reordered <==> multiset(c) == multiset(p) && c != p))
    {
      if q.sequenceId != sequenceId || q.tenant != tenant || protectedEntries == [] {
        return Unavailable;
      }
      ghost var c, p := Bundles(q.entries), Bundles(protectedEntries);
      var count := CountSubject(q.entries, q.subject);
      if count != 1 {
        return SubjectMissing;
      }
      SameBundlesSameEntries(q.entries, protectedEntries);
      if q.entries == protectedEntries {
        WholeIsSubsequence(c);
        return Passed;
      }
      var found := ScanSubsequence(q.entries, protectedEntries);
      if found {
        if |c| == |p| {
          SameLengthSubsequence(c, p);
        }
        return DeletionDetected;
      }
      SameMembersIffPermutation(c, p);
      MembersOfBundles(q.entries);
      MembersOfBundles(protectedEntries);
      assert |multiset(c)| == |c| && |multiset(p)| == |p|;
      if (set e | e in q.entries :: e.bundle) == (set e | e in protectedEntries :: e.bundle)
         && |q.entries| == |protectedEntries| {
        return Reordered;
      }
      verdict := Mismatch;
    }
  }

  lemma AppendIsWellFormed(entries: seq<Entry>, bundle: Identity)
    requires WellFormed(entries)
    ensures WellFormed(entries + [Entry(|entries| + 1, bundle)]) <==>
              forall i | 0 <= i < |entries| :: entries[i].bundle.bundleId != bundle.bundleId
  {
    var s := Bundles(entries);
    var s' := Bundles(entries + [Entry(|entries| + 1, bundle)]);
    assert s' == s + [bundle];
    if DistinctBundles(s') {
      forall i | 0 <= i < |entries| ensures entries[i].bundle.bundleId != bundle.bundleId {
        assert s'[i].bundleId != s'[|entries|].bundleId;
      }
    }
  }

  lemma MembersOfBundles(entries: seq<Entry>)
    ensures (set e | e in entries :: e.bundle) == Members(Bundles(entries))
  {
    forall x ensures x in Members(Bundles(entries)) <==> x in set e | e in entries :: e.bundle {
      if x in Bundles(entries) {
        var i :| 0 <= i < |entries| && Bundles(entries)[i] == x;
        assert entries[i] in entries && entries[i].bundle == x;
      }
      if x in set e | e in entries :: e.bundle {
        var e :| e in entries && e.bundle == x;
        var i :| 0 <= i < |entries| && entries[i] == e;
        assert Bundles(entries)[i] == x;
      }
    }
  }

  lemma SameBundlesSameEntries(x: seq<Entry>, y: seq<Entry>)
    requires WellFormed(x) && WellFormed(y)
    ensures x == y <==> Bundles(x) == Bundles(y)
  {
    if Bundles(x) == Bundles(y) {
      forall i | 0 <= i < |x| ensures x[i] == y[i] {
        assert Bundles(x)[i] == Bundles(y)[i];
      }
    }
  }

  lemma WholeIsSubsequence(c: seq<Identity>)
    ensures IsSubsequence(c, c)
  {
    assert IsPlacement(c, c, seq(|c|, i requires 0 <= i < |c| => i));
  }

  /** How often the subject stands in a well-formed history: once or not at all. */
  method CountSubject(entries: seq<Entry>, subject: Identity) returns (count: nat)
    requires WellFormed(entries)
    ensures count == if subject in Bundles(entries) then 1 else 0
  {
    count := 0;
    ghost var s := Bundles(entries);
    for k := 0 to |entries|
      invariant count == if subject in s[..k] then 1 else 0
    {
      assert s[..k + 1] == s[..k] + [s[k]];
      if entries[k].bundle == subject {
        count := count + 1;
      }
    }
    assert s[..|s|] == s;
  }
}
