/** The store object makes the steps that runs are built from, so every theorem about runs is a
    theorem about what its tables can hold. */
module StoreRuns {
  import opened Basics
  import opened LedgerTypes
  import opened LedgerInvariant
  import opened Runs
  import opened Ownership
  import opened DurableStore

  /** The calls of the idempotency store. */
  method ServeStoreCall(store: Store, s: Step)
    requires store.Valid() && IsStoreCall(s)
    modifies store
    ensures store.Contents() == Apply(old(store.Contents()), s)
  {
    match s
    case AcquireCall(q) => var _ := store.Acquire(q);
    case CompleteCall(c, result, now) => var _ := store.Complete(c, result, now);
    case FailCall(c) => var _ := store.Fail(c);
    case MarkUnknownCall(c, error, now) => var _ := store.MarkUnknown(c, error, now);
    case RenewCall(c, now, lease) => var _ := store.Renew(c, now, lease);
    case PruneCall(cutoff) => var _ := store.PruneCompleted(cutoff);
  }

  /** The calls of the reconciliation ledger. */
  method ServeLedgerCall(store: Store, s: Step)
    requires LogsOk(store.Contents()) && !IsStoreCall(s)
    modifies store
    ensures store.Contents() == Apply(old(store.Contents()), s)
  {
    match s
    case PrepareCall(c, a) => var _ := store.PrepareAction(c, a);
    case RecordUnknownCall(c, a, error, now, o) => var _ := store.RecordUnknown(c, a, error, now, o);
    case CreateUnknownCall(a, o) => var _ := store.CreateUnknown(a, o);
    case StartCall(cx, p, expected, now, o) => var _ := store.StartAttempt(cx, p, expected, now, o);
    case FinishCall(cx, p, outcome, expected, finding, note, now, o) =>
      var _ := store.FinishAttempt(cx, p, outcome, expected, finding, note, now, o);
    case RecoverCall(id, now, fits, o, o') => var _ := store.RecoverUnfinished(id, now, fits, Draws(o, o'));
    case TransitionCall(q) => var _ := store.CompareAndAppendTransition(q);
    case DeliveredCall(o, now) => var _ := store.MarkDelivered(o, now);
    case DeliveryFailedCall(o) => var _ := store.RecordDeliveryFailure(o);
  }

  /** Serving calls one after the other, from a new store, reaches the tables of that run. */
  method ServeAll(steps: seq<Step>) returns (store: Store)
    ensures fresh(store)
    ensures store.Contents() == RunFrom(BEGINNING, steps).tables
    ensures store.Valid()
  {
    store := new Store();
    ghost var w := BEGINNING;
    for i := 0 to |steps|
      invariant store.Contents() == w.tables && store.Valid()
      invariant RunFrom(w, steps[i..]) == RunFrom(BEGINNING, steps)
    {
      ApplyKeeps(store.Contents(), steps[i]);
      assert steps[i..][1..] == steps[i + 1..];
      w := Next(w, steps[i]);
      if IsStoreCall(steps[i]) {
        ServeStoreCall(store, steps[i]);
      } else {
        ServeLedgerCall(store, steps[i]);
      }
    }
    assert steps[|steps|..] == [];
  }
}
