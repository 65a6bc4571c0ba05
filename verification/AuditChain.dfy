/** The hash chain shared by both durable audit sinks.

    The hash of an entry is an arbitrary function of its body, sequence number and predecessor
    hash; determinism needs it to be collision free. */
module AuditChain {
  import opened Basics
  import opened LedgerTypes

  /** A reconciliation envelope under its outbox id, or any other event. */
  datatype Body = Reconciliation(payload: Payload, auditId: OutboxId) | OtherEvent(json: Json)

  type Digest(==, !new)

  type Hash = (Body, int, Digest) -> Digest

  datatype Entry = Entry(body: Body, sequence: int, prev: Digest, hash: Digest)

  /** Equal hashes come from equal hashed fields. */
  predicate Separates(h: Hash, x: Entry, y: Entry) {
    h(x.body, x.sequence, x.prev) == h(y.body, y.sequence, y.prev) ==>
      x.body == y.body && x.sequence == y.sequence && x.prev == y.prev
  }

  ghost predicate CollisionFree(h: Hash) {
    forall x, y :: Separates(h, x, y)
  }

  function Prepare(h: Hash, body: Body, sequence: int, prev: Digest): Entry {
    Entry(body, sequence, prev, h(body, sequence, prev))
  }

  predicate Verifies(h: Hash, e: Entry, sequence: int, prev: Digest) {
    e.sequence == sequence && e.prev == prev && e.hash == h(e.body, e.sequence, e.prev)
  }

  /** The hash that precedes index `i`. */
  function HashBefore(es: seq<Entry>, i: nat, prev: Digest): Digest
    requires i <= |es|
  {
    if i == 0 then prev else es[i - 1].hash
  }

  predicate LinkedAt(h: Hash, es: seq<Entry>, i: nat, first: int, prev: Digest) {
    i < |es| && Verifies(h, es[i], first + i, HashBefore(es, i, prev))
  }

  /** Contiguous sequence numbers from `first`, each entry naming the hash before it. */
  predicate Chained(h: Hash, es: seq<Entry>, first: int, prev: Digest) {
    forall i: nat | i < |es| :: LinkedAt(h, es, i, first, prev)
  }

  lemma ChainGrows(h: Hash, es: seq<Entry>, first: int, prev: Digest, e: Entry)
    requires Chained(h, es, first, prev) && Verifies(h, e, first + |es|, HashBefore(es, |es|, prev))
    ensures Chained(h, es + [e], first, prev)
  {
    forall i: nat | i < |es + [e]| ensures LinkedAt(h, es + [e], i, first, prev) {
      assert i < |es| ==> LinkedAt(h, es, i, first, prev);
    }
  }

  /** Two chains from one anchor that agree on one hash agree on everything up to it. */
  lemma {:induction false} AgreeUpTo(h: Hash, es: seq<Entry>, fs: seq<Entry>, first: int, prev: Digest, k: nat)
    requires CollisionFree(h) && Chained(h, es, first, prev) && Chained(h, fs, first, prev)
    requires k < |es| && k < |fs| && es[k].hash == fs[k].hash
    ensures es[..k + 1] == fs[..k + 1]
    decreases k
  {
    assert LinkedAt(h, es, k, first, prev) && LinkedAt(h, fs, k, first, prev);
    assert Separates(h, es[k], fs[k]);
    if k > 0 {
      AgreeUpTo(h, es, fs, first, prev, k - 1);
    }
  }

  /** One anchor and one tail determine the whole chain. */
  lemma ChainDetermined(h: Hash, es: seq<Entry>, fs: seq<Entry>, first: int, prev: Digest)
    requires CollisionFree(h) && Chained(h, es, first, prev) && Chained(h, fs, first, prev)
    requires |es| == |fs| && HashBefore(es, |es|, prev) == HashBefore(fs, |fs|, prev)
    ensures es == fs
  {
    if es != [] {
      AgreeUpTo(h, es, fs, first, prev, |es| - 1);
      assert es[..|es|] == es && fs[..|fs|] == fs;
    }
  }
}
