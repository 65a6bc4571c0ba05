/** The bulkhead object: its fields change in place under the lock. */
module Admission {
  import B = Bulkhead
  import opened Bulkhead

  class RuntimeBulkhead {
    const capacity: int
    var available: int
    var waiters: seq<nat>
    /** The number of callers so far; callers are named by it. */
    var next: nat
    var state: map<nat, WaiterState>
    /** Grants whose delivery callback has not run yet. */
    var scheduled: set<nat>
    /** Leases by caller, with their released flag. */
    var leases: map<nat, bool>
    ghost var held: set<nat>
    ghost var grants: seq<nat>

    ghost function Contents(): Desk
      reads this
    {
      Desk(available, waiters, next, state, scheduled, leases, held, grants)
    }

    ghost predicate Valid()
      reads this
    {
      Settled(capacity, Contents())
    }

    constructor (capacity: int)
      requires capacity >= 1
      ensures Valid() && this.capacity == capacity && Contents() == Fresh(capacity)
    {
      this.capacity, available := capacity, capacity;
      waiters, next, state, scheduled, leases, held, grants := [], 0, map[], {}, map[], {}, [];
    }

    /** Grant free permits to the queue until one of them runs out. */
    method GrantNext(closed: set<nat>)
      modifies this
      ensures Contents() == GrantAll(old(Contents()), closed)
    {
      while available > 0 && waiters != []
        invariant GrantAll(Contents(), closed) == GrantAll(old(Contents()), closed)
        decreases |waiters|
      {
        ghost var d := Contents();
        var w := waiters[0];
        waiters := waiters[1..];
        if w !in state || state[w] != Waiting {
          assert Contents() == GrantOldest(d, closed);
          continue;
        }
        state := state[w := Granted];
        available := available - 1;
        if w in closed {
          state := state[w := Cancelled];
          available := available + 1;
          assert state == d.state[w := Cancelled];
        } else {
          scheduled := scheduled + {w};
          held, grants := held + {w}, grants + [w];
        }
        assert Contents() == GrantOldest(d, closed);
      }
    }

    /** Take a free permit and its lease, or queue: exactly as long as one is free, in a valid desk. */
    method AcquireOrEnqueue() returns (caller: nat, granted: bool)
      modifies this
      ensures Contents() == Enter(old(Contents())) && caller == old(next)
      ensures granted <==> state[caller] == Granted
      ensures granted ==> held == old(held) + {caller} && caller in leases && !leases[caller] && available == old(available) - 1
      ensures !granted ==> waiters == old(waiters) + [caller] && available == old(available) && held == old(held)
      ensures old(Valid()) ==> (granted <==> old(available) > 0)
    {
      caller := next;
      next := next + 1;
      if available <= 0 || waiters != [] {
        waiters := waiters + [caller];
        state := state[caller := Waiting];
        return caller, false;
      }
      available := available - 1;
      state := state[caller := Granted];
      leases := leases[caller := false];
      held, grants := held + {caller}, grants + [caller];
      granted := true;
    }

    /** A caller without a lease gives up. */
    method Withdraw(w: nat, how: WaiterState, closed: set<nat>)
      requires w in state
      modifies this
      ensures Contents() == B.Withdraw(old(Contents()), w, how, closed)
    {
      if state[w] == Waiting {
        waiters := Removed(waiters, w);
      } else if state[w] == Granted {
        available := available + 1;
      } else {
        return;
      }
      state := state[w := how];
      held := held - {w};
      GrantNext(closed);
    }

    /** The callback of a grant runs in the caller's loop. */
    method Deliver(w: nat, done: bool, closed: set<nat>)
      requires w in state
      modifies this
      ensures Contents() == B.Deliver(old(Contents()), w, done, closed)
    {
      scheduled := scheduled - {w};
      if state[w] != Granted {
        return;
      }
      if done {
        state := state[w := Cancelled];
        available := available + 1;
        held := held - {w};
        GrantNext(closed);
      }
    }

    /** A caller whose grant was delivered takes its lease. */
    method Resume(w: nat)
      modifies this
      ensures Contents() == B.Resume(old(Contents()), w)
      ensures w in leases && !leases[w] && Contents() == old(Contents()).(leases := leases)
    {
      leases := leases[w := false];
    }

    /** Return a permit, unless all are already back. */
    method ReleasePermit(closed: set<nat>) returns (raised: bool)
      modifies this
      ensures raised <==> old(available) >= capacity
      ensures Contents() == if raised then old(Contents())
                            else GrantAll(old(Contents()).(available := old(available) + 1), closed)
    {
      raised := available >= capacity;
      if !raised {
        available := available + 1;
        GrantNext(closed);
      }
    }

    method ReleaseUnderLock(w: nat, closed: set<nat>) returns (raised: bool)
      requires w in leases
      modifies this
      ensures raised <==> OverRelease(capacity, old(Contents()), w)
      ensures !raised ==> Contents() == B.Release(old(Contents()), w, closed)
    {
      if leases[w] {
        return false;
      }
      leases := leases[w := true];
      held := held - {w};
      raised := ReleasePermit(closed);
    }

    /** Release a lease.  The first release never raises, gives the permit back, and hands it to the
        oldest open waiter; any other changes nothing. */
    method ReleaseLease(w: nat, closed: set<nat>) returns (raised: bool)
      requires w in leases
      modifies this
      ensures raised <==> OverRelease(capacity, old(Contents()), w)
      ensures !raised ==> Contents() == B.Release(old(Contents()), w, closed)
      ensures old(leases)[w] ==> !raised && Contents() == old(Contents())
      ensures old(Valid()) && !old(leases)[w] ==>
                Valid() && !raised && Freed(old(Contents()), w, closed, Contents())
    {
      ghost var d := Contents();
      raised := ReleaseUnderLock(w, closed);
      if Settled(capacity, d) && !d.leases[w] {
        FirstReleaseFrees(capacity, d, w, closed);
        ReleaseKeeps(capacity, d, w, closed);
      }
    }

    /** Any critical section keeps the desk settled; releasing never raises. */
    method Serve(s: Step) returns (raised: bool)
      requires Valid() && Enabled(Contents(), s)
      modifies this
      ensures Valid() && Contents() == Do(old(Contents()), s) && !raised
    {
      DoKeeps(capacity, Contents(), s);
      raised := false;
      match s
      case EnterStep => var _, _ := AcquireOrEnqueue();
      case WithdrawStep(w, how, closed) => Withdraw(w, how, closed);
      case DeliverStep(w, done, closed) => Deliver(w, done, closed);
      case ResumeStep(w) => Resume(w);
      case ReleaseStep(w, closed) =>
        ReleaseKeeps(capacity, Contents(), w, closed);
        raised := ReleaseLease(w, closed);
    }
  }
}
