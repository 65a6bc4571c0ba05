/** The admission limit shared by event loops: permits, a first-come queue of waiters, and leases
    that may be released more than once.

    Callers are numbered by arrival.  Each step is one critical section under the lock; timeouts,
    cancellations, closed loops and late callbacks may come between any two of them. */
module Bulkhead {

  datatype WaiterState = Waiting | Granted | TimedOut | Cancelled

  /** Everything the lock protects, with who holds a permit and every grant ever made, in order. */
  datatype Desk = Desk(
    available: int,
    waiters: seq<nat>,
    next: nat,
    state: map<nat, WaiterState>,
    scheduled: set<nat>,
    leases: map<nat, bool>,
    held: set<nat>,
    grants: seq<nat>)

  // ---------------------------------------------------------------- steps

  /** Take the oldest waiter off the queue and grant it, unless its loop is closed. */
  function GrantOldest(d: Desk, closed: set<nat>): Desk
    requires d.waiters != []
  {
    var w := d.waiters[0];
    if w !in d.state || d.state[w] != Waiting then d.(waiters := d.waiters[1..])
    else if w in closed then d.(waiters := d.waiters[1..], state := d.state[w := Cancelled])
    else
      d.(waiters := d.waiters[1..], state := d.state[w := Granted], available := d.available - 1,
         scheduled := d.scheduled + {w}, held := d.held + {w}, grants := d.grants + [w])
  }

  /** Hand free permits to the queue, oldest first. */
  function GrantAll(d: Desk, closed: set<nat>): Desk
    decreases |d.waiters|
  {
    if d.available > 0 && d.waiters != [] then GrantAll(GrantOldest(d, closed), closed) else d
  }

  /** A new caller takes a free permit, or queues behind everyone who came before. */
  function Enter(d: Desk): Desk {
    if d.available <= 0 || d.waiters != [] then
      d.(waiters := d.waiters + [d.next], next := d.next + 1, state := d.state[d.next := Waiting])
    else
      d.(available := d.available - 1, next := d.next + 1, state := d.state[d.next := Granted],
         leases := d.leases[d.next := false], held := d.held + {d.next}, grants := d.grants + [d.next])
  }

  function Removed(s: seq<nat>, w: nat): seq<nat> {
    if s == [] then []
    else if s[0] == w then s[1..]
    else [s[0]] + Removed(s[1..], w)
  }

  /** The waiter's permit, if it has one, becomes free. */
  function Leave(d: Desk, w: nat, how: WaiterState): Desk
    requires w in d.state
  {
    d.(waiters := if d.state[w] == Waiting then Removed(d.waiters, w) else d.waiters,
       available := if d.state[w] == Granted then d.available + 1 else d.available,
       state := d.state[w := how], held := d.held - {w})
  }

  /** A timeout or cancellation of a caller that has no lease yet. */
  function Withdraw(d: Desk, w: nat, how: WaiterState, closed: set<nat>): Desk
    requires w in d.state
  {
    if d.state[w] == Waiting || d.state[w] == Granted then GrantAll(Leave(d, w, how), closed) else d
  }

  /** The delivery callback of a grant; `done` says that the future was already cancelled. */
  function Deliver(d: Desk, w: nat, done: bool, closed: set<nat>): Desk
    requires w in d.state
  {
    var d' := d.(scheduled := d.scheduled - {w});
    if d.state[w] != Granted || !done then d' else GrantAll(Leave(d', w, Cancelled), closed)
  }

  /** A caller whose grant was delivered takes its lease. */
  function Resume(d: Desk, w: nat): Desk {
    d.(leases := d.leases[w := false])
  }

  predicate OverRelease(capacity: int, d: Desk, w: nat)
    requires w in d.leases
  {
    !d.leases[w] && d.available >= capacity
  }

  /** Release a lease; only the first release counts. */
  function Release(d: Desk, w: nat, closed: set<nat>): Desk
    requires w in d.leases
  {
    if d.leases[w] then d
    else GrantAll(d.(leases := d.leases[w := true], held := d.held - {w}, available := d.available + 1), closed)
  }

  // ---------------------------------------------------------------- the invariant

  predicate Increasing(s: seq<nat>) {
    forall i, j | 0 <= i < j < |s| :: s[i] < s[j]
  }

  predicate Holding(w: nat, state: map<nat, WaiterState>, leases: map<nat, bool>) {
    w in state && state[w] == Granted && !(w in leases && leases[w])
  }

  /** Free permits and permits held by granted waiters and live leases add up to the capacity. */
  ghost predicate Conserved(capacity: int, available: int, held: set<nat>, state: map<nat, WaiterState>,
                            leases: map<nat, bool>) {
    && 0 <= available && available + |held| == capacity
    && forall w :: w in held <==> Holding(w, state, leases)
  }

  /** The queue holds exactly the waiting ones; leases and callbacks belong to served ones. */
  ghost predicate Placed(waiters: seq<nat>, state: map<nat, WaiterState>, leases: map<nat, bool>, scheduled: set<nat>) {
    && (forall w | w in waiters :: w in state)
    && (forall w | w in state :: state[w] == Waiting <==> w in waiters)
    && (forall w | w in leases :: w in state && state[w] == Granted && w !in scheduled)
    && (forall w | w in scheduled :: w in state && state[w] != Waiting)
  }

  /** Grants came in order of arrival, and before everyone who still waits or is yet to come. */
  predicate Fair(grants: seq<nat>, waiters: seq<nat>, next: nat) {
    && Increasing(grants) && Increasing(waiters)
    && (grants != [] && waiters != [] ==> grants[|grants| - 1] < waiters[0])
    && (grants != [] ==> grants[|grants| - 1] < next)
    && (waiters != [] ==> waiters[|waiters| - 1] < next)
  }

  ghost predicate Consistent(capacity: int, d: Desk) {
    && Conserved(capacity, d.available, d.held, d.state, d.leases)
    && Placed(d.waiters, d.state, d.leases, d.scheduled)
    && Fair(d.grants, d.waiters, d.next)
    && forall w | w in d.state :: w < d.next
  }

  /** Between critical sections a free permit never coexists with a waiter. */
  ghost predicate Settled(capacity: int, d: Desk) {
    Consistent(capacity, d) && (d.available > 0 ==> d.waiters == [])
  }

  // ---------------------------------------------------------------- granting

  lemma PopIsPlaced(waiters: seq<nat>, state: map<nat, WaiterState>, leases: map<nat, bool>, scheduled: set<nat>,
                    s: WaiterState, more: set<nat>)
    requires Placed(waiters, state, leases, scheduled) && waiters != [] && Increasing(waiters) && s != Waiting
    requires more <= {waiters[0]}
    ensures Placed(waiters[1..], state[waiters[0] := s], leases, scheduled + more)
  {
    var w := waiters[0];
    assert state[w] == Waiting;
    assert w !in waiters[1..];
    assert forall v :: v in waiters <==> v == w || v in waiters[1..];
  }

  lemma PopIsFair(grants: seq<nat>, waiters: seq<nat>, next: nat)
    requires Fair(grants, waiters, next) && waiters != []
    ensures Fair(grants + [waiters[0]], waiters[1..], next)
    ensures Fair(grants, waiters[1..], next)
  {
  }

  lemma GrantIsConserved(capacity: int, available: int, held: set<nat>, state: map<nat, WaiterState>,
                         leases: map<nat, bool>, w: nat, leases': map<nat, bool>)
    requires Conserved(capacity, available, held, state, leases) && available > 0
    requires w in state ==> state[w] == Waiting
    requires w !in leases && (leases' == leases || leases' == leases[w := false])
    ensures Conserved(capacity, available - 1, held + {w}, state[w := Granted], leases')
  {
    assert !Holding(w, state, leases);
    assert forall v | v != w :: Holding(v, state, leases) <==> Holding(v, state[w := Granted], leases');
  }

  /** A waiter leaves: a permit it holds becomes free again. */
  lemma LeaveIsConserved(capacity: int, available: int, held: set<nat>, state: map<nat, WaiterState>,
                         leases: map<nat, bool>, w: nat, s: WaiterState)
    requires Conserved(capacity, available, held, state, leases)
    requires w in state && w !in leases && s != Granted
    ensures Conserved(capacity, if state[w] == Granted then available + 1 else available, held - {w}, state[w := s], leases)
  {
    assert Holding(w, state, leases) <==> state[w] == Granted;
    assert forall v | v != w :: Holding(v, state, leases) <==> Holding(v, state[w := s], leases);
  }

  lemma GrantOldestKeeps(capacity: int, d: Desk, closed: set<nat>)
    requires Consistent(capacity, d) && d.available > 0 && d.waiters != []
    ensures Consistent(capacity, GrantOldest(d, closed))
  {
    var w := d.waiters[0];
    assert d.state[w] == Waiting;
    PopIsFair(d.grants, d.waiters, d.next);
    if w in closed {
      LeaveIsConserved(capacity, d.available, d.held, d.state, d.leases, w, Cancelled);
      assert d.held - {w} == d.held;
      PopIsPlaced(d.waiters, d.state, d.leases, d.scheduled, Cancelled, {});
    } else {
      GrantIsConserved(capacity, d.available, d.held, d.state, d.leases, w, d.leases);
      PopIsPlaced(d.waiters, d.state, d.leases, d.scheduled, Granted, {w});
    }
  }

  lemma {:induction false} GrantAllSettles(capacity: int, d: Desk, closed: set<nat>)
    requires Consistent(capacity, d)
    ensures Settled(capacity, GrantAll(d, closed))
    decreases |d.waiters|
  {
    if d.available > 0 && d.waiters != [] {
      GrantOldestKeeps(capacity, d, closed);
      GrantAllSettles(capacity, GrantOldest(d, closed), closed);
    }
  }

  // ---------------------------------------------------------------- who is served

  /** The waiters that `free` permits go to: queue order, skipping closed loops. */
  function Served(queue: seq<nat>, free: int, closed: set<nat>): seq<nat> {
    if free <= 0 || queue == [] then []
    else if queue[0] in closed then Served(queue[1..], free, closed)
    else [queue[0]] + Served(queue[1..], free - 1, closed)
  }

  predicate AllWaiting(queue: seq<nat>, state: map<nat, WaiterState>) {
    forall i | 0 <= i < |queue| :: queue[i] in state && state[queue[i]] == Waiting
  }

  lemma {:induction false} GrantAllServes(d: Desk, closed: set<nat>)
    requires AllWaiting(d.waiters, d.state) && Increasing(d.waiters)
    ensures GrantAll(d, closed).grants == d.grants + Served(d.waiters, d.available, closed)
    decreases |d.waiters|
  {
    if d.available > 0 && d.waiters != [] {
      var w, rest := d.waiters[0], d.waiters[1..];
      assert AllWaiting(rest, GrantOldest(d, closed).state);
      GrantAllServes(GrantOldest(d, closed), closed);
      assert d.grants + ([w] + Served(rest, d.available - 1, closed)) == d.grants + [w] + Served(rest, d.available - 1, closed);
    }
  }

  // ---------------------------------------------------------------- every step

  lemma QueueIsPlaced(waiters: seq<nat>, state: map<nat, WaiterState>, leases: map<nat, bool>, scheduled: set<nat>, w: nat)
    requires Placed(waiters, state, leases, scheduled) && w !in state
    ensures Placed(waiters + [w], state[w := Waiting], leases, scheduled)
  {
    assert forall v :: v in waiters + [w] <==> v in waiters || v == w;
  }

  lemma QueueIsConserved(capacity: int, d: Desk, w: nat)
    requires Conserved(capacity, d.available, d.held, d.state, d.leases) && w !in d.state
    ensures Conserved(capacity, d.available, d.held, d.state[w := Waiting], d.leases)
  {
    assert forall v :: Holding(v, d.state, d.leases) <==> Holding(v, d.state[w := Waiting], d.leases);
  }

  lemma EnterKeeps(capacity: int, d: Desk)
    requires Settled(capacity, d)
    ensures Settled(capacity, Enter(d))
  {
    if d.available <= 0 || d.waiters != [] {
      QueueIsPlaced(d.waiters, d.state, d.leases, d.scheduled, d.next);
      QueueIsConserved(capacity, d, d.next);
    } else {
      GrantIsConserved(capacity, d.available, d.held, d.state, d.leases, d.next, d.leases[d.next := false]);
      LeaseIsPlaced(d.state, d.leases, d.scheduled, d.next);
    }
  }

  lemma LeaseIsPlaced(state: map<nat, WaiterState>, leases: map<nat, bool>, scheduled: set<nat>, w: nat)
    requires Placed([], state, leases, scheduled) && w !in state
    ensures Placed([], state[w := Granted], leases[w := false], scheduled)
  {
  }

  lemma {:induction false} RemovedMembers(s: seq<nat>, w: nat, v: nat)
    requires Increasing(s)
    ensures v in Removed(s, w) <==> v in s && v != w
  {
    if s != [] {
      TailIsIncreasing(s);
      if s[0] != w {
        RemovedMembers(s[1..], w, v);
        assert v in [s[0]] + Removed(s[1..], w) <==> v == s[0] || v in Removed(s[1..], w);
      }
    }
  }

  lemma {:induction false} RemovedIsIncreasing(s: seq<nat>, w: nat)
    requires Increasing(s)
    ensures Increasing(Removed(s, w))
  {
    if s != [] {
      TailIsIncreasing(s);
      if s[0] != w {
        RemovedIsIncreasing(s[1..], w);
        forall v | v in Removed(s[1..], w) ensures v > s[0] {
          RemovedMembers(s[1..], w, v);
        }
        ConsIsIncreasing(s[0], Removed(s[1..], w));
      }
    }
  }

  lemma RemovedShrinks(s: seq<nat>, w: nat)
    requires Increasing(s)
    ensures Increasing(Removed(s, w))
    ensures forall v :: v in Removed(s, w) <==> v in s && v != w
    ensures Removed(s, w) != [] ==> s != [] && Removed(s, w)[0] >= s[0] && Removed(s, w)[|Removed(s, w)| - 1] <= s[|s| - 1]
  {
    var t := Removed(s, w);
    RemovedIsIncreasing(s, w);
    forall v ensures v in t <==> v in s && v != w {
      RemovedMembers(s, w, v);
    }
    if t != [] {
      assert t[0] in t && t[|t| - 1] in t;
      EndsBound(s, t[0]);
      EndsBound(s, t[|t| - 1]);
    }
  }

  lemma EndsBound(s: seq<nat>, v: nat)
    requires Increasing(s) && v in s
    ensures s[0] <= v <= s[|s| - 1]
  {
    var i :| 0 <= i < |s| && s[i] == v;
  }

  lemma TailIsIncreasing(s: seq<nat>)
    requires Increasing(s) && s != []
    ensures Increasing(s[1..]) && forall v | v in s[1..] :: v > s[0]
    ensures forall v :: v in s <==> v == s[0] || v in s[1..]
    ensures s[1..] != [] ==> s[1..][0] > s[0] && s[1..][|s[1..]| - 1] == s[|s| - 1]
  {
    forall v | v in s[1..] ensures v > s[0] {
      var i :| 0 <= i < |s[1..]| && s[1..][i] == v;
      assert s[i + 1] == v;
    }
    assert s == [s[0]] + s[1..];
  }

  lemma ConsIsIncreasing(x: nat, t: seq<nat>)
    requires Increasing(t) && forall v | v in t :: v > x
    ensures Increasing([x] + t)
  {
    forall i | 0 <= i < |t| ensures t[i] > x {
      assert t[i] in t;
    }
  }

  lemma LeaveIsPlaced(waiters: seq<nat>, state: map<nat, WaiterState>, leases: map<nat, bool>, scheduled: set<nat>,
                      w: nat, how: WaiterState)
    requires Placed(waiters, state, leases, scheduled) && Increasing(waiters)
    requires w in state && w !in leases && how != Waiting
    ensures Placed(if state[w] == Waiting then Removed(waiters, w) else waiters, state[w := how], leases, scheduled)
  {
    RemovedShrinks(waiters, w);
  }

  lemma LeaveIsFair(grants: seq<nat>, waiters: seq<nat>, next: nat, w: nat)
    requires Fair(grants, waiters, next)
    ensures Fair(grants, Removed(waiters, w), next)
  {
    RemovedShrinks(waiters, w);
    assert waiters == [] ==> Removed(waiters, w) == [];
  }

  lemma LeaveKeeps(capacity: int, d: Desk, w: nat, how: WaiterState)
    requires Consistent(capacity, d) && w in d.state && w !in d.leases && (how == TimedOut || how == Cancelled)
    ensures Consistent(capacity, Leave(d, w, how))
  {
    LeaveIsConserved(capacity, d.available, d.held, d.state, d.leases, w, how);
    LeaveIsPlaced(d.waiters, d.state, d.leases, d.scheduled, w, how);
    LeaveIsFair(d.grants, d.waiters, d.next, w);
  }

  lemma WithdrawKeeps(capacity: int, d: Desk, w: nat, how: WaiterState, closed: set<nat>)
    requires Settled(capacity, d) && w in d.state && w !in d.leases && (how == TimedOut || how == Cancelled)
    ensures Settled(capacity, Withdraw(d, w, how, closed))
  {
    LeaveKeeps(capacity, d, w, how);
    GrantAllSettles(capacity, Leave(d, w, how), closed);
  }

  lemma DeliverKeeps(capacity: int, d: Desk, w: nat, done: bool, closed: set<nat>)
    requires Settled(capacity, d) && w in d.scheduled
    ensures Settled(capacity, Deliver(d, w, done, closed))
  {
    var d' := d.(scheduled := d.scheduled - {w});
    assert Consistent(capacity, d');
    LeaveKeeps(capacity, d', w, Cancelled);
    GrantAllSettles(capacity, Leave(d', w, Cancelled), closed);
  }

  lemma ResumeKeeps(capacity: int, d: Desk, w: nat)
    requires Settled(capacity, d) && w in d.state && d.state[w] == Granted && w !in d.scheduled && w !in d.leases
    ensures Settled(capacity, Resume(d, w))
  {
    assert forall v :: Holding(v, d.state, d.leases) <==> Holding(v, d.state, d.leases[w := false]);
  }

  /** Releasing never finds the permits already complete. */
  lemma ReleaseKeeps(capacity: int, d: Desk, w: nat, closed: set<nat>)
    requires Settled(capacity, d) && w in d.leases
    ensures Settled(capacity, Release(d, w, closed)) && !OverRelease(capacity, d, w)
  {
    if !d.leases[w] {
      var leases := d.leases[w := true];
      assert Holding(w, d.state, d.leases);
      assert forall v | v != w :: Holding(v, d.state, d.leases) <==> Holding(v, d.state, leases);
      GrantAllSettles(capacity, d.(leases := leases, held := d.held - {w}, available := d.available + 1), closed);
    }
  }

  // ---------------------------------------------------------------- what every step does

  function SetOf(s: seq<nat>): set<nat> {
    set v | v in s
  }

  /** From `d` with `free` permits for `queue`, the oldest open waiters were served and nothing else
      happened to permits and leases. */
  predicate ServedFrom(d: Desk, queue: seq<nat>, free: int, held: set<nat>, closed: set<nat>, d': Desk) {
    var served := Served(queue, free, closed);
    && d'.grants == d.grants + served
    && d'.available == free - |served|
    && d'.held == held + SetOf(served)
    && d'.next == d.next
    && (forall v | v in d'.waiters :: v in queue && v !in served)
  }

  lemma ServedAreQueued(queue: seq<nat>, free: int, closed: set<nat>)
    ensures forall v | v in Served(queue, free, closed) :: v in queue && v !in closed
  {
  }

  /** Every permit served is counted and held. */
  lemma {:induction false} GrantAllCounts(d: Desk, closed: set<nat>)
    requires AllWaiting(d.waiters, d.state) && Increasing(d.waiters)
    ensures var d', served := GrantAll(d, closed), Served(d.waiters, d.available, closed);
            && d'.available == d.available - |served| && d'.held == d.held + SetOf(served)
            && d'.next == d.next && d'.leases == d.leases
    decreases |d.waiters|
  {
    if d.available > 0 && d.waiters != [] {
      var w, rest, d1 := d.waiters[0], d.waiters[1..], GrantOldest(d, closed);
      assert AllWaiting(rest, d1.state);
      GrantAllCounts(d1, closed);
      var more := Served(rest, d1.available, closed);
      assert SetOf([w] + more) == {w} + SetOf(more);
    }
  }

  /** Who still waits was not served. */
  lemma {:induction false} GrantAllLeavesUnserved(d: Desk, closed: set<nat>)
    requires AllWaiting(d.waiters, d.state) && Increasing(d.waiters)
    ensures forall v | v in GrantAll(d, closed).waiters :: v in d.waiters && v !in Served(d.waiters, d.available, closed)
    decreases |d.waiters|
  {
    if d.available > 0 && d.waiters != [] {
      var d1 := GrantOldest(d, closed);
      assert AllWaiting(d.waiters[1..], d1.state);
      TailIsIncreasing(d.waiters);
      GrantAllLeavesUnserved(d1, closed);
    }
  }

  /** Nobody outside the queue is touched. */
  lemma {:induction false} GrantAllLeavesOthers(d: Desk, closed: set<nat>, v: nat)
    requires v in d.state && v !in d.waiters
    ensures v in GrantAll(d, closed).state && GrantAll(d, closed).state[v] == d.state[v]
    decreases |d.waiters|
  {
    if d.available > 0 && d.waiters != [] {
      GrantAllLeavesOthers(GrantOldest(d, closed), closed, v);
    }
  }

  lemma GrantAllServesFrom(d: Desk, closed: set<nat>)
    requires AllWaiting(d.waiters, d.state) && Increasing(d.waiters)
    ensures var d' := GrantAll(d, closed);
            ServedFrom(d, d.waiters, d.available, d.held, closed, d') && d'.leases == d.leases
  {
    GrantAllServes(d, closed);
    GrantAllCounts(d, closed);
    GrantAllLeavesUnserved(d, closed);
  }

  lemma QueueIsWaiting(capacity: int, d: Desk)
    requires Consistent(capacity, d)
    ensures AllWaiting(d.waiters, d.state) && Increasing(d.waiters)
  {
    forall i | 0 <= i < |d.waiters| ensures d.waiters[i] in d.state && d.state[d.waiters[i]] == Waiting {
      assert d.waiters[i] in d.waiters;
    }
  }

  /** The lease is released, its permit is back, and the queue was served with it. */
  predicate Freed(d: Desk, w: nat, closed: set<nat>, d': Desk) {
    && w in d.held && w !in d'.held && d'.leases == d.leases[w := true]
    && ServedFrom(d, d.waiters, d.available + 1, d.held - {w}, closed, d')
  }

  /** The first release gives the permit back, and it goes to the oldest open waiter, if any. */
  lemma FirstReleaseFrees(capacity: int, d: Desk, w: nat, closed: set<nat>)
    requires Settled(capacity, d) && w in d.leases && !d.leases[w]
    ensures Freed(d, w, closed, Release(d, w, closed))
  {
    assert Holding(w, d.state, d.leases);
    var d1 := d.(leases := d.leases[w := true], held := d.held - {w}, available := d.available + 1);
    QueueIsWaiting(capacity, d);
    GrantAllServesFrom(d1, closed);
    ServedAreQueued(d.waiters, d1.available, closed);
  }

  /** A caller that gives up leaves the queue, or gives back the permit it was granted. */
  lemma WithdrawLeaves(capacity: int, d: Desk, w: nat, how: WaiterState, closed: set<nat>)
    requires Settled(capacity, d) && w in d.state && w !in d.leases && (how == TimedOut || how == Cancelled)
    ensures var d' := Withdraw(d, w, how, closed);
            match d.state[w]
            case Waiting =>
              && d' == d.(waiters := d'.waiters, state := d.state[w := how]) && Increasing(d'.waiters)
              && (forall v :: v in d'.waiters <==> v in d.waiters && v != w)
            case Granted =>
              && w in d.held && w !in d'.held && w !in d'.waiters && w in d'.state && d'.state[w] == how && d'.leases == d.leases
              && ServedFrom(d, d.waiters, d.available + 1, d.held - {w}, closed, d')
            case _ => d' == d
  {
    if d.state[w] == Waiting {
      assert w in d.waiters && d.available <= 0;
      assert !Holding(w, d.state, d.leases);
      RemovedShrinks(d.waiters, w);
    } else if d.state[w] == Granted {
      GivesBack(capacity, d, w, how, closed);
    }
  }

  lemma GivesBack(capacity: int, d: Desk, w: nat, how: WaiterState, closed: set<nat>)
    requires Consistent(capacity, d) && w in d.state && d.state[w] == Granted && w !in d.leases
    requires how == TimedOut || how == Cancelled
    ensures var d' := GrantAll(Leave(d, w, how), closed);
            && w in d.held && w !in d'.held && w !in d'.waiters && w in d'.state && d'.state[w] == how && d'.leases == d.leases
            && ServedFrom(d, d.waiters, d.available + 1, d.held - {w}, closed, d')
  {
    assert Holding(w, d.state, d.leases);
    LeaveKeeps(capacity, d, w, how);
    QueueIsWaiting(capacity, Leave(d, w, how));
    GrantAllServesFrom(Leave(d, w, how), closed);
    GrantAllLeavesOthers(Leave(d, w, how), closed, w);
    ServedAreQueued(d.waiters, d.available + 1, closed);
  }

  /** A delivery whose future is already done gives its grant back; any other changes nothing. */
  lemma DeliverReturns(capacity: int, d: Desk, w: nat, done: bool, closed: set<nat>)
    requires Settled(capacity, d) && w in d.scheduled
    ensures var d' := Deliver(d, w, done, closed);
            if done && d.state[w] == Granted
            then && w in d.held && w !in d'.held && w in d'.state && d'.state[w] == Cancelled && d'.leases == d.leases
                 && ServedFrom(d, d.waiters, d.available + 1, d.held - {w}, closed, d')
            else d' == d.(scheduled := d.scheduled - {w})
  {
    var d1 := d.(scheduled := d.scheduled - {w});
    if done && d.state[w] == Granted {
      assert Consistent(capacity, d1);
      GivesBack(capacity, d1, w, Cancelled, closed);
    }
  }

  // ---------------------------------------------------------------- whole runs

  datatype Step =
    | EnterStep
    | WithdrawStep(who: nat, how: WaiterState, closed: set<nat>)
    | DeliverStep(who: nat, done: bool, closed: set<nat>)
    | ResumeStep(who: nat)
    | ReleaseStep(who: nat, closed: set<nat>)

  /** What callers can do: withdraw before they have a lease, run a scheduled callback once, take a
      delivered grant, release a lease any number of times. */
  predicate Enabled(d: Desk, s: Step) {
    match s
    case EnterStep => true
    case WithdrawStep(w, how, _) => w in d.state && w !in d.leases && (how == TimedOut || how == Cancelled)
    case DeliverStep(w, _, _) => w in d.scheduled && w in d.state
    case ResumeStep(w) => w in d.state && d.state[w] == Granted && w !in d.scheduled && w !in d.leases
    case ReleaseStep(w, _) => w in d.leases
  }

  function Do(d: Desk, s: Step): Desk
    requires Enabled(d, s)
  {
    match s
    case EnterStep => Enter(d)
    case WithdrawStep(w, how, closed) => Withdraw(d, w, how, closed)
    case DeliverStep(w, done, closed) => Deliver(d, w, done, closed)
    case ResumeStep(w) => Resume(d, w)
    case ReleaseStep(w, closed) => Release(d, w, closed)
  }

  predicate EnabledRun(d: Desk, steps: seq<Step>)
    decreases |steps|
  {
    steps == [] || (Enabled(d, steps[0]) && EnabledRun(Do(d, steps[0]), steps[1..]))
  }

  function Run(d: Desk, steps: seq<Step>): Desk
    requires EnabledRun(d, steps)
    decreases |steps|
  {
    if steps == [] then d else Run(Do(d, steps[0]), steps[1..])
  }

  function Fresh(capacity: int): Desk {
    Desk(capacity, [], 0, map[], {}, map[], {}, [])
  }

  lemma DoKeeps(capacity: int, d: Desk, s: Step)
    requires Settled(capacity, d) && Enabled(d, s)
    ensures Settled(capacity, Do(d, s))
  {
    match s
    case EnterStep => EnterKeeps(capacity, d);
    case WithdrawStep(w, how, closed) => WithdrawKeeps(capacity, d, w, how, closed);
    case DeliverStep(w, done, closed) => DeliverKeeps(capacity, d, w, done, closed);
    case ResumeStep(w) => ResumeKeeps(capacity, d, w);
    case ReleaseStep(w, closed) => ReleaseKeeps(capacity, d, w, closed);
  }

  lemma RunKeeps(capacity: int, d: Desk, steps: seq<Step>)
    requires Settled(capacity, d) && EnabledRun(d, steps)
    ensures Settled(capacity, Run(d, steps))
    decreases |steps|
  {
    if steps != [] {
      DoKeeps(capacity, d, steps[0]);
      RunKeeps(capacity, Do(d, steps[0]), steps[1..]);
    }
  }

  /** In every run: permits are conserved, a free permit never meets a waiter, nobody is granted
      before someone who came earlier and still waits, and no release is one too many. */
  lemma PermitsConservedAndFair(capacity: int, steps: seq<Step>)
    requires capacity >= 1 && EnabledRun(Fresh(capacity), steps)
    ensures var d := Run(Fresh(capacity), steps);
            && d.available + |d.held| == capacity && d.available >= 0
            && (forall w :: w in d.held <==> Holding(w, d.state, d.leases))
            && (d.available > 0 ==> forall w | w in d.state :: d.state[w] != Waiting)
            && Increasing(d.grants)
            && (forall g, w | g in d.grants && w in d.state && d.state[w] == Waiting :: g < w)
            && (forall w | w in d.leases :: !OverRelease(capacity, d, w))
  {
    RunKeeps(capacity, Fresh(capacity), steps);
    var d := Run(Fresh(capacity), steps);
    forall g, w | g in d.grants && w in d.state && d.state[w] == Waiting ensures g < w {
      WaitersComeLater(d.grants, d.waiters, d.next, g, w);
    }
    forall w | w in d.leases ensures !OverRelease(capacity, d, w) {
      ReleaseKeeps(capacity, d, w, {});
    }
  }

  lemma WaitersComeLater(grants: seq<nat>, waiters: seq<nat>, next: nat, g: nat, w: nat)
    requires Fair(grants, waiters, next) && g in grants && w in waiters
    ensures g < w
  {
    var i :| 0 <= i < |grants| && grants[i] == g;
    var j :| 0 <= j < |waiters| && waiters[j] == w;
    assert g <= grants[|grants| - 1] && waiters[0] <= w;
  }

  lemma ReleasedStays(capacity: int, d: Desk, s: Step, w: nat)
    requires Settled(capacity, d) && Enabled(d, s) && w in d.leases && d.leases[w]
    ensures w in Do(d, s).leases && Do(d, s).leases[w]
  {
    match s
    case EnterStep =>
    case WithdrawStep(v, how, closed) => GrantAllKeepsLeases(Leave(d, v, how), closed);
    case DeliverStep(v, done, closed) =>
      GrantAllKeepsLeases(Leave(d.(scheduled := d.scheduled - {v}), v, Cancelled), closed);
    case ResumeStep(v) =>
    case ReleaseStep(v, closed) =>
      GrantAllKeepsLeases(d.(leases := d.leases[v := true], held := d.held - {v}, available := d.available + 1), closed);
  }

  lemma GrantAllKeepsLeases(d: Desk, closed: set<nat>)
    ensures GrantAll(d, closed).leases == d.leases
    decreases |d.waiters|
  {
    if d.available > 0 && d.waiters != [] {
      GrantAllKeepsLeases(GrantOldest(d, closed), closed);
    }
  }

  /** However often a lease is released again, whatever happens in between, nothing changes. */
  lemma {:induction false} ReleasedOnce(capacity: int, d: Desk, steps: seq<Step>, w: nat, closed: set<nat>)
    requires Settled(capacity, d) && EnabledRun(d, steps) && w in d.leases && d.leases[w]
    ensures w in Run(d, steps).leases && Release(Run(d, steps), w, closed) == Run(d, steps)
    decreases |steps|
  {
    if steps != [] {
      DoKeeps(capacity, d, steps[0]);
      ReleasedStays(capacity, d, steps[0], w);
      ReleasedOnce(capacity, Do(d, steps[0]), steps[1..], w, closed);
    }
  }
}
