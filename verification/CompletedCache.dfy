/** The process-local idempotency store: in-flight claims stay, settled outcomes are kept in a
    cache bounded by age and by number, least recently touched first out. */
module CompletedCache {
  import opened Basics

  type Slot(==, !new)
  type Fingerprint(==, !new)
  type Json(==, !new)

  datatype Touch = Touch(slot: Slot, at: Time)

  datatype Entry = Entry(fingerprint: Fingerprint, future: nat)

  datatype Settlement = Value(json: Json) | Failure | OutcomeUnknown

  datatype Claim = Claim(slot: Slot, fingerprint: Fingerprint, owner: bool, future: nat)

  // ---------------------------------------------------------------- the simple specification

  /** Touches after the cutoff. */
  function FreshOnes(s: seq<Touch>, cutoff: Time): seq<Touch> {
    if s == [] then []
    else (if s[0].at > cutoff then [s[0]] else []) + FreshOnes(s[1..], cutoff)
  }

  function LastFew(s: seq<Touch>, n: nat): seq<Touch> {
    if |s| <= n then s else s[|s| - n..]
  }

  /** The fresh touches cut to the `max` most recent. */
  function Recent(s: seq<Touch>, max: nat, cutoff: Time): seq<Touch> {
    LastFew(FreshOnes(s, cutoff), max)
  }

  predicate ByTime(s: seq<Touch>) {
    forall i, j | 0 <= i < j < |s| :: s[i].at <= s[j].at
  }

  predicate DistinctSlots(s: seq<Touch>) {
    forall i, j | 0 <= i < j < |s| :: s[i].slot != s[j].slot
  }

  predicate Tracked(s: seq<Touch>, slot: Slot) {
    exists i | 0 <= i < |s| :: s[i].slot == slot
  }

  lemma AllFresh(s: seq<Touch>, cutoff: Time)
    requires forall i | 0 <= i < |s| :: s[i].at > cutoff
    ensures FreshOnes(s, cutoff) == s
  {
  }

  /** In a list ordered by time the fresh touches are a suffix. */
  lemma {:induction false} FreshIsSuffix(s: seq<Touch>, cutoff: Time, f: nat)
    requires f <= |s|
    requires forall j | 0 <= j < f :: s[j].at <= cutoff
    requires forall j | f <= j < |s| :: s[j].at > cutoff
    ensures FreshOnes(s, cutoff) == s[f..]
  {
    if f == 0 {
      AllFresh(s, cutoff);
      assert s[0..] == s;
    } else {
      FreshIsSuffix(s[1..], cutoff, f - 1);
      assert s[1..][f - 1..] == s[f..];
    }
  }

  /** Popping from the front while the oldest touch is stale or there are too many leaves exactly
      the recent ones. */
  lemma PoppingLeavesRecent(s: seq<Touch>, max: nat, cutoff: Time, i: nat)
    requires ByTime(s) && i <= |s|
    requires forall j | 0 <= j < i :: s[j].at <= cutoff || |s| - j > max
    requires i < |s| ==> s[i].at > cutoff && |s| - i <= max
    ensures s[i..] == Recent(s, max, cutoff)
  {
    var f := FirstFresh(s, cutoff);
    FreshIsSuffix(s, cutoff, f);
    var n := |s| - f;
    var before := if i > 0 then s[i - 1].at else cutoff;
    var here := if i < |s| then s[i].at else cutoff;
    if n <= max {
      assert i == f;
    } else {
      assert i == |s| - max;
      DropTwice(s, f, n - max);
    }
  }

  lemma DropTwice(s: seq<Touch>, f: nat, k: nat)
    requires f + k <= |s|
    ensures s[f..][k..] == s[f + k..]
  {
  }

  /** Where the fresh part of a list ordered by time begins. */
  lemma FirstFresh(s: seq<Touch>, cutoff: Time) returns (f: nat)
    requires ByTime(s)
    ensures f <= |s|
    ensures forall j | 0 <= j < f :: s[j].at <= cutoff
    ensures forall j | f <= j < |s| :: s[j].at > cutoff
  {
    f := 0;
    while f < |s| && s[f].at <= cutoff
      invariant f <= |s| && forall j | 0 <= j < f :: s[j].at <= cutoff
    {
      f := f + 1;
    }
  }

  /** Move a slot to the recent end. */
  function Remembered(s: seq<Touch>, slot: Slot, now: Time): seq<Touch> {
    WithoutSlot(s, slot) + [Touch(slot, now)]
  }

  function WithoutSlot(s: seq<Touch>, slot: Slot): seq<Touch> {
    if s == [] then []
    else if s[0].slot == slot then s[1..]
    else [s[0]] + WithoutSlot(s[1..], slot)
  }

  lemma {:induction false} WithoutSlotKeeps(s: seq<Touch>, slot: Slot)
    requires ByTime(s) && DistinctSlots(s)
    ensures var t := WithoutSlot(s, slot);
            && ByTime(t) && DistinctSlots(t) && !Tracked(t, slot)
            && (forall x :: Tracked(t, x) <==> Tracked(s, x) && x != slot)
            && (forall i | 0 <= i < |t| :: t[i] in s)
            && |t| == if Tracked(s, slot) then |s| - 1 else |s|
  {
    if s == [] {
    } else if s[0].slot == slot {
      forall x ensures Tracked(s[1..], x) <==> Tracked(s, x) && x != slot {
        SplitTracked(s, x);
      }
      SplitTracked(s, slot);
    } else {
      var rest := WithoutSlot(s[1..], slot);
      WithoutSlotKeeps(s[1..], slot);
      forall x ensures Tracked([s[0]] + rest, x) <==> Tracked(s, x) && x != slot {
        SplitTracked(s, x);
        SplitTracked([s[0]] + rest, x);
        assert ([s[0]] + rest)[1..] == rest;
      }
      SplitTracked(s, slot);
      forall i | 0 <= i < |rest| ensures s[0].at <= rest[i].at && s[0].slot != rest[i].slot {
        assert rest[i] in s[1..];
        var k :| 0 <= k < |s[1..]| && s[1..][k] == rest[i];
        assert rest[i] == s[k + 1];
      }
    }
  }

  lemma LastIsLatest(s: seq<Touch>)
    requires ByTime(s)
    ensures forall t | t in s :: t.at <= s[|s| - 1].at
  {
    forall t | t in s ensures t.at <= s[|s| - 1].at {
      var k :| 0 <= k < |s| && s[k] == t;
    }
  }

  lemma SplitTracked(s: seq<Touch>, x: Slot)
    requires s != []
    ensures Tracked(s, x) <==> s[0].slot == x || Tracked(s[1..], x)
  {
    if Tracked(s[1..], x) {
      var i :| 0 <= i < |s[1..]| && s[1..][i].slot == x;
      assert s[i + 1].slot == x;
    }
    if Tracked(s, x) {
      var i :| 0 <= i < |s| && s[i].slot == x;
      assert i > 0 ==> s[1..][i - 1].slot == x;
    }
  }

  lemma RememberedKeeps(s: seq<Touch>, slot: Slot, now: Time)
    requires ByTime(s) && DistinctSlots(s) && (s != [] ==> s[|s| - 1].at <= now)
    ensures var t := Remembered(s, slot, now);
            && ByTime(t) && DistinctSlots(t) && t[|t| - 1].at <= now
            && (forall x :: Tracked(t, x) <==> Tracked(s, x) || x == slot)
            && |t| == if Tracked(s, slot) then |s| else |s| + 1
  {
    WithoutSlotKeeps(s, slot);
    var r := WithoutSlot(s, slot);
    var t := r + [Touch(slot, now)];
    forall x ensures Tracked(t, x) <==> Tracked(s, x) || x == slot {
      SnocTracked(r, Touch(slot, now), x);
    }
    forall i | 0 <= i < |r| ensures r[i].at <= now && r[i].slot != slot {
      assert r[i] in s;
    }
  }

  lemma SnocTracked(s: seq<Touch>, t: Touch, x: Slot)
    ensures Tracked(s + [t], x) <==> Tracked(s, x) || t.slot == x
  {
    if Tracked(s, x) {
      var i :| 0 <= i < |s| && s[i].slot == x;
      assert (s + [t])[i].slot == x;
    }
    assert (s + [t])[|s|] == t;
  }

  // ---------------------------------------------------------------- the store

  /** Entries without the settled ones among the given touches. */
  function Dropped(entries: map<Slot, Entry>, settled: map<nat, Settlement>, gone: seq<Touch>): map<Slot, Entry> {
    map slot | slot in entries && !(entries[slot].future in settled && Tracked(gone, slot)) :: entries[slot]
  }

  lemma DropOne(entries: map<Slot, Entry>, settled: map<nat, Settlement>, gone: seq<Touch>, t: Touch)
    ensures var d := Dropped(entries, settled, gone);
            Dropped(entries, settled, gone + [t]) ==
              if t.slot in d && d[t.slot].future in settled then d - {t.slot} else d
  {
    forall s ensures Tracked(gone + [t], s) <==> Tracked(gone, s) || t.slot == s {
      SnocTracked(gone, t, s);
    }
  }

  /** What is still tracked after the first `i` touches are gone is exactly what was not among them. */
  lemma TrackedParts(s: seq<Touch>, i: nat, x: Slot)
    requires DistinctSlots(s) && i <= |s|
    ensures Tracked(s, x) <==> Tracked(s[..i], x) || Tracked(s[i..], x)
    ensures !(Tracked(s[..i], x) && Tracked(s[i..], x))
  {
    if Tracked(s, x) {
      var j :| 0 <= j < |s| && s[j].slot == x;
      assert j < i ==> s[..i][j].slot == x;
      assert j >= i ==> s[i..][j - i].slot == x;
    }
    if Tracked(s[..i], x) {
      var j :| 0 <= j < |s[..i]| && s[..i][j].slot == x;
      assert s[j].slot == x;
    }
    if Tracked(s[i..], x) {
      var k :| 0 <= k < |s[i..]| && s[i..][k].slot == x;
      assert s[i + k].slot == x;
    }
  }

  function SettledSlots(entries: map<Slot, Entry>, settled: map<nat, Settlement>): set<Slot> {
    set s | s in entries && entries[s].future in settled
  }

  function Slots(s: seq<Touch>): set<Slot> {
    set i | 0 <= i < |s| :: s[i].slot
  }

  lemma FewSlots(s: seq<Touch>)
    ensures |Slots(s)| <= |s|
  {
    if s != [] {
      var n := |s| - 1;
      FewSlots(s[..n]);
      assert Slots(s) == Slots(s[..n]) + {s[n].slot};
    }
  }

  lemma SubsetIsSmaller(x: set<Slot>, y: set<Slot>)
    requires x <= y
    ensures |x| <= |y|
  {
    if x != {} {
      var a :| a in x;
      SubsetIsSmaller(x - {a}, y - {a});
    }
  }

  class InMemoryStore {
    const maxCompleted: nat
    const ttl: int
    var entries: map<Slot, Entry>
    var completed: seq<Touch>
    /** Futures that are done, with what they hold. */
    var settled: map<nat, Settlement>
    var nextFuture: nat
    /** Which slot each future was created for, and the latest clock reading. */
    ghost var issued: map<nat, Slot>
    ghost var clock: Time

    ghost predicate Issued(c: Claim)
      reads this
    {
      c.future in issued && issued[c.future] == c.slot
    }

    /** Between calls: touches are in order of time, every settled entry is tracked, and there are
        at most `maxCompleted` of them. */
    ghost predicate Valid()
      reads this
    {
      && maxCompleted >= 1 && ttl > 0
      && InOrder()
      && |completed| <= maxCompleted
      && Known()
      && SettledAreTracked()
    }

    ghost predicate InOrder()
      reads this
    {
      ByTime(completed) && DistinctSlots(completed) && (completed != [] ==> completed[|completed| - 1].at <= clock)
    }

    ghost predicate Known()
      reads this
    {
      && (forall f | f in issued :: f < nextFuture)
      && (forall f | f in settled :: f in issued)
      && (forall s | s in entries :: entries[s].future in issued && issued[entries[s].future] == s)
    }

    ghost predicate SettledAreTracked()
      reads this
    {
      forall s | s in entries && entries[s].future in settled :: Tracked(completed, s)
    }

    constructor (maxCompleted: nat, ttl: int, now: Time)
      requires maxCompleted >= 1 && ttl > 0
      ensures Valid() && entries == map[] && clock == now
    {
      this.maxCompleted, this.ttl := maxCompleted, ttl;
      entries, completed, settled, nextFuture, issued, clock := map[], [], map[], 0, map[], now;
    }

    /** Hence at most `maxCompleted` entries are settled, after any call. */
    lemma SettledAreFew()
      requires Valid()
      ensures |SettledSlots(entries, settled)| <= maxCompleted
    {
      forall s | s in SettledSlots(entries, settled) ensures s in Slots(completed) {
        assert Tracked(completed, s);
      }
      SubsetIsSmaller(SettledSlots(entries, settled), Slots(completed));
      FewSlots(completed);
    }

    /** Pop from the old end while the oldest touch is stale or there are too many; a settled entry
        goes with its touch. */
    method PopStale(cutoff: Time) returns (ghost popped: nat)
      modifies this`entries, this`completed
      ensures popped <= |old(completed)| && completed == old(completed)[popped..]
      ensures forall j | 0 <= j < popped :: old(completed)[j].at <= cutoff || |old(completed)| - j > maxCompleted
      ensures completed != [] ==> completed[0].at > cutoff && |completed| <= maxCompleted
      ensures entries == Dropped(old(entries), settled, old(completed)[..popped])
    {
      ghost var s := completed;
      popped := 0;
      while completed != []
        invariant 0 <= popped <= |s| && completed == s[popped..]
        invariant forall j | 0 <= j < popped :: s[j].at <= cutoff || |s| - j > maxCompleted
        invariant entries == Dropped(old(entries), settled, s[..popped])
        decreases |completed|
      {
        var oldest := completed[0];
        if oldest.at > cutoff && |completed| <= maxCompleted {
          break;
        }
        DropOne(old(entries), settled, s[..popped], oldest);
        assert s[..popped + 1] == s[..popped] + [oldest];
        completed := completed[1..];
        popped := popped + 1;
        if oldest.slot in entries && entries[oldest.slot].future in settled {
          entries := entries - {oldest.slot};
        }
      }
    }

    /** What stays is exactly the recent touches; a settled entry goes with its touch, an unsettled
        one never goes. */
    method EvictCompleted(now: Time)
      requires InOrder() && clock <= now
      modifies this`entries, this`completed, this`clock
      ensures InOrder() && clock == now
      ensures completed == Recent(old(completed), maxCompleted, now - ttl) && |completed| <= maxCompleted
      ensures entries == Survivors(old(entries), settled, old(completed), completed)
    {
      ghost var s := completed;
      ghost var popped := PopStale(now - ttl);
      PoppingLeavesRecent(s, maxCompleted, now - ttl, popped);
      SurvivorsAfterPops(old(entries), settled, s, popped);
      clock := now;
    }

    /** Touch a slot now. */
    method RememberCompleted(slot: Slot, now: Time)
      requires InOrder() && clock <= now
      modifies this`completed, this`clock
      ensures InOrder() && clock == now && completed == Remembered(old(completed), slot, now)
      ensures forall x :: Tracked(completed, x) <==> Tracked(old(completed), x) || x == slot
      ensures |completed| == if Tracked(old(completed), slot) then |old(completed)| else |old(completed)| + 1
    {
      RememberedKeeps(completed, slot, now);
      completed := WithoutSlot(completed, slot);
      completed := completed + [Touch(slot, now)];
      clock := now;
    }

    /** A new future for a slot without an entry; the entry's own for the same request, which a settled
        slot is touched for; nothing for another request. */
    method ClaimSlot(slot: Slot, fingerprint: Fingerprint, now: Time) returns (claim: Option<Claim>)
      requires Valid() && clock <= now
      modifies this
      ensures Valid() && settled == old(settled) && (claim.Some? ==> Issued(claim.value))
      ensures if slot !in old(entries) then
                && claim == Some(Claim(slot, fingerprint, true, old(nextFuture))) && nextFuture == old(nextFuture) + 1
                && entries == old(entries)[slot := Entry(fingerprint, old(nextFuture))] && completed == old(completed)
              else
                var entry := old(entries)[slot];
                && nextFuture == old(nextFuture) && entries == old(entries)
                && claim == (if entry.fingerprint == fingerprint then Some(Claim(slot, fingerprint, false, entry.future)) else None)
                && completed == if claim.Some? && entry.future in settled then Remembered(old(completed), slot, now) else old(completed)
    {
      if slot !in entries {
        entries := entries[slot := Entry(fingerprint, nextFuture)];
        issued := issued[nextFuture := slot];
        nextFuture := nextFuture + 1;
        return Some(Claim(slot, fingerprint, true, entries[slot].future));
      }
      var entry := entries[slot];
      if entry.fingerprint != fingerprint {
        return None;
      }
      if entry.future in settled {
        RememberCompleted(slot, now);
      }
      claim := Some(Claim(slot, fingerprint, false, entry.future));
    }

    /** A new owner for a slot without an entry; otherwise the same future as everyone else.  An
        unsettled slot never gets a second owner. */
    method Acquire(slot: Slot, fingerprint: Fingerprint, now: Time, later: Time) returns (claim: Option<Claim>)
      requires Valid() && clock <= now <= later
      modifies this
      ensures Valid() && settled == old(settled)
      ensures claim.Some? ==> Issued(claim.value) && slot in entries && entries[slot] == Entry(fingerprint, claim.value.future)
      ensures claim.None? ==> slot in old(entries) && old(entries)[slot].fingerprint != fingerprint
      ensures claim.Some? && claim.value.owner ==>
                && claim.value.future == old(nextFuture)
                && (slot in old(entries) ==> old(entries)[slot].future in settled && !Tracked(Recent(old(completed), maxCompleted, now - ttl), slot))
      ensures claim.Some? && !claim.value.owner ==> slot in old(entries) && old(entries)[slot].future == claim.value.future
      ensures forall s | s in old(entries) && old(entries)[s].future !in settled :: s in entries && entries[s] == old(entries)[s]
      ensures var recent := Recent(old(completed), maxCompleted, now - ttl);
              var kept := Survivors(old(entries), settled, old(completed), recent);
              if slot !in kept then
                && claim == Some(Claim(slot, fingerprint, true, old(nextFuture))) && nextFuture == old(nextFuture) + 1
                && entries == kept[slot := Entry(fingerprint, old(nextFuture))] && completed == recent
              else
                && nextFuture == old(nextFuture) && entries == kept
                && claim == (if kept[slot].fingerprint == fingerprint then Some(Claim(slot, fingerprint, false, kept[slot].future)) else None)
                && completed == if claim.Some? && kept[slot].future in settled then Remembered(recent, slot, later) else recent
    {
      EvictCompleted(now);
      claim := ClaimSlot(slot, fingerprint, later);
    }

    /** Settle a claim's future once, then track and evict. */
    method Settle(claim: Claim, outcome: Settlement, now: Time, later: Time)
      requires Valid() && Issued(claim) && clock <= now <= later
      modifies this
      ensures Valid() && issued == old(issued) && nextFuture == old(nextFuture)
      ensures !claim.owner ==> settled == old(settled) && entries == old(entries) && completed == old(completed)
      ensures claim.owner ==>
                && settled == (if claim.future in old(settled) then old(settled) else old(settled)[claim.future := outcome])
                && completed == Recent(Remembered(old(completed), claim.slot, now), maxCompleted, later - ttl)
                && entries == Survivors(old(entries), settled, Remembered(old(completed), claim.slot, now), completed)
      ensures forall s | s in old(entries) && old(entries)[s].future !in settled :: s in entries && entries[s] == old(entries)[s]
    {
      if !claim.owner {
        return;
      }
      if claim.future !in settled {
        settled := settled[claim.future := outcome];
      }
      RememberCompleted(claim.slot, now);
      EvictCompleted(later);
    }

    method Forget(slot: Slot)
      requires InOrder()
      modifies this`completed
      ensures InOrder() && completed == WithoutSlot(old(completed), slot) && |completed| <= |old(completed)|
      ensures forall x :: Tracked(completed, x) <==> Tracked(old(completed), x) && x != slot
    {
      WithoutSlotKeeps(completed, slot);
      LastIsLatest(completed);
      completed := WithoutSlot(completed, slot);
    }

    /** Take a claim's own entry and its touch away; nobody else waits on that future. */
    method WithdrawEntry(claim: Claim)
      requires Valid() && Issued(claim)
      modifies this`entries, this`completed
      ensures Valid() && forall s | s in entries :: entries[s].future != claim.future
      ensures if claim.slot in old(entries) && old(entries)[claim.slot].future == claim.future
              then entries == old(entries) - {claim.slot} && completed == WithoutSlot(old(completed), claim.slot)
              else entries == old(entries) && completed == old(completed)
    {
      if claim.slot in entries && entries[claim.slot].future == claim.future {
        entries := entries - {claim.slot};
        Forget(claim.slot);
      }
    }

    /** Withdraw a claim's own entry, so that the slot may be claimed anew. */
    method Fail(claim: Claim)
      requires Valid() && Issued(claim)
      modifies this`entries, this`completed, this`settled
      ensures Valid()
      ensures claim.owner && claim.slot in old(entries) && old(entries)[claim.slot].future == claim.future ==>
                entries == old(entries) - {claim.slot} && completed == WithoutSlot(old(completed), claim.slot)
      ensures !(claim.owner && claim.slot in old(entries) && old(entries)[claim.slot].future == claim.future) ==>
                entries == old(entries) && completed == old(completed)
      ensures settled == if claim.owner && claim.future !in old(settled) then old(settled)[claim.future := Failure] else old(settled)
    {
      if !claim.owner {
        return;
      }
      WithdrawEntry(claim);
      if claim.future !in settled {
        settled := settled[claim.future := Failure];
      }
    }
  }

  /** An entry survives an eviction when it is unsettled, was never tracked, or still is tracked. */
  function Survivors(entries: map<Slot, Entry>, settled: map<nat, Settlement>, before: seq<Touch>, after: seq<Touch>)
    : map<Slot, Entry>
  {
    map slot | slot in entries && (entries[slot].future !in settled || !Tracked(before, slot) || Tracked(after, slot)) ::
      entries[slot]
  }

  lemma SurvivorsAfterPops(entries: map<Slot, Entry>, settled: map<nat, Settlement>, s: seq<Touch>, i: nat)
    requires DistinctSlots(s) && i <= |s|
    ensures Dropped(entries, settled, s[..i]) == Survivors(entries, settled, s, s[i..])
  {
    forall x ensures Tracked(s[..i], x) <==> Tracked(s, x) && !Tracked(s[i..], x) {
      TrackedParts(s, i, x);
    }
  }
}
