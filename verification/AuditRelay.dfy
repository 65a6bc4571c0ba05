/** Reading pending audit envelopes and draining them into the sink. */
module AuditRelay {
  import opened Basics
  import opened LedgerTypes
  import opened Operations
  import opened LedgerInvariant
  import opened Runs
  import opened AuditChain
  import opened SqliteSink
  import opened Delivery
  import opened DurableStore

  // ---------------------------------------------------------------- reading the outbox

  predicate Eligible(outbox: map<OutboxId, Envelope>, only: Option<ExecId>, o: OutboxId) {
    Deliverable(outbox, o) && (only.None? || outbox[o].execId == only.value)
  }

  /** The order in which executions are drained. */
  predicate NotAfter(outbox: map<OutboxId, Envelope>, p: OutboxId, o: OutboxId) {
    p in outbox && o in outbox && outbox[p].execId.rank <= outbox[o].execId.rank
  }

  lemma LowestExists(outbox: map<OutboxId, Envelope>, left: set<OutboxId>) returns (lo: OutboxId)
    requires left != {} && forall o | o in left :: o in outbox
    ensures lo in left && forall o | o in left :: outbox[lo].execId.rank <= outbox[o].execId.rank
    decreases left
  {
    lo :| lo in left;
    if left != {lo} {
      var other := LowestExists(outbox, left - {lo});
      if outbox[other].execId.rank < outbox[lo].execId.rank {
        lo := other;
      }
    }
  }

  /** At most `limit` eligible envelopes in execution order: all of them when fewer exist, and
      otherwise none that comes before a left-out one. */
  method PendingAuditEvents(outbox: map<OutboxId, Envelope>, only: Option<ExecId>, limit: int)
    returns (batch: Option<seq<OutboxId>>)
    ensures batch.Some? <==> 1 <= limit <= 1000
    ensures batch.Some? ==>
              var b := batch.value;
              && |b| <= limit
              && (forall i | 0 <= i < |b| :: Eligible(outbox, only, b[i]))
              && (forall i, j | 0 <= i < j < |b| :: b[i] != b[j] && NotAfter(outbox, b[i], b[j]))
              && (forall o | o in outbox && Eligible(outbox, only, o) && o !in b ::
                    |b| == limit && forall i | 0 <= i < |b| :: NotAfter(outbox, b[i], o))
  {
    if !(1 <= limit <= 1000) {
      return None;
    }
    var left := set o | o in outbox && Eligible(outbox, only, o);
    var b: seq<OutboxId> := [];
    while left != {} && |b| < limit
      invariant |b| <= limit
      invariant forall o | o in outbox && Eligible(outbox, only, o) :: o in b || o in left
      invariant forall o | o in left :: o in outbox && Eligible(outbox, only, o) && o !in b
      invariant forall i | 0 <= i < |b| :: Eligible(outbox, only, b[i])
      invariant forall i, j | 0 <= i < j < |b| :: b[i] != b[j] && NotAfter(outbox, b[i], b[j])
      invariant forall o, i | o in left && 0 <= i < |b| :: NotAfter(outbox, b[i], o)
      decreases left
    {
      ghost var lowest := LowestExists(outbox, left);
      var o :| o in left && forall p | p in left :: outbox[o].execId.rank <= outbox[p].execId.rank;
      b := b + [o];
      left := left - {o};
    }
    batch := Some(b);
  }

  // ---------------------------------------------------------------- delivering one envelope

  /** Writing a deliverable envelope never fails on its content and keeps the queue in step. */
  lemma DeliverableWrites(h: Hash, t: Tables, sink: Sink, o: OutboxId)
    requires QueueOk(t.outbox, sink.rows, map[]) && Deliverable(t.outbox, o)
    ensures var r := Write(h, sink, BodyOf(t.outbox[o].payload, o), Some(o));
            r.Done? && QueueOk(t.outbox, r.state.rows, map[]) && HasSource(r.state.rows, o) && sink.rows <= r.state.rows
  {
    var d := DrainerId(0);
    var none: Hands := map[];
    ReadKeeps(t.outbox, sink.rows, none, d, {o});
    var hand := map p | p in {o} && p in t.outbox :: Held(t.outbox[p].payload, false);
    var y := System(t, sink, none[d := hand]);
    assert Holding(y, d, o);
    RetryIsSafe(h, y, d, o);
    DeliverKeeps(h, y, d, o);
    var y' := Do(h, y, Deliver(d, o));
    assert HandOk(y'.tables.outbox, y'.sink.rows, o, y'.hands[d][o]);
  }

  /** Acknowledging what is in the sink keeps the queue in step. */
  lemma AcknowledgeWritten(t: Tables, rows: seq<Row>, o: OutboxId, now: Time)
    requires QueueOk(t.outbox, rows, map[]) && HasSource(rows, o)
    ensures QueueOk(After(t, MarkDelivered(t, o, now)).outbox, rows, map[])
  {
    DeliveryMarkGrows(t, o, now);
    OutboxMoveKeeps(t.outbox, After(t, MarkDelivered(t, o, now)).outbox, rows, map[]);
  }

  lemma FailureKeepsQueue(t: Tables, rows: seq<Row>, o: OutboxId)
    requires QueueOk(t.outbox, rows, map[])
    ensures QueueOk(After(t, RecordDeliveryFailure(t, o)).outbox, rows, map[])
  {
    FailureMarkGrows(t, o);
    OutboxMoveKeeps(t.outbox, After(t, RecordDeliveryFailure(t, o)).outbox, rows, map[]);
  }

  /** What may go wrong with one delivery: nothing, the sink raises without writing, the sink has
      written and the call or the acknowledgement raises, or the acknowledgement commits and then
      raises. */
  datatype Trouble = Fine | BeforeWrite | AfterWrite | AfterCommit

  /** The acknowledgement takes effect. */
  predicate Commits(trouble: Trouble) {
    trouble.Fine? || trouble.AfterCommit?
  }

  ghost predicate AllFine(trouble: nat -> Trouble, from: nat, to: nat) {
    forall k: nat | from <= k < to :: trouble(k).Fine?
  }

  datatype DrainReply = Drained(count: nat) | BadLimit | DeliveryPending(outboxId: OutboxId)

  function Undelivered(outbox: map<OutboxId, Envelope>): set<OutboxId> {
    set o | o in outbox && outbox[o].deliveredAt.None?
  }

  /** The store and sink between two deliveries. */
  ghost predicate InStep(store: Store, sink: SqliteAuditSink)
    reads store, sink
  {
    QueueOk(store.outbox, sink.rows, map[])
  }

  /** Only the envelopes in `acked` went from pending to delivered, and nothing else moved. */
  ghost predicate Acked(before: map<OutboxId, Envelope>, after: map<OutboxId, Envelope>, acked: set<OutboxId>) {
    && after.Keys == before.Keys
    && acked <= Undelivered(before)
    && Undelivered(after) == Undelivered(before) - acked
    && forall o | o in before :: SamePlace(before[o], after[o])
  }

  lemma AckOne(t: Tables, o: OutboxId, now: Time)
    requires o in Undelivered(t.outbox)
    ensures Acked(t.outbox, After(t, MarkDelivered(t, o, now)).outbox, {o})
  {
  }

  lemma AckNone(t: Tables, o: OutboxId)
    ensures Acked(t.outbox, After(t, RecordDeliveryFailure(t, o)).outbox, {})
  {
  }

  /** Acknowledging one envelope leaves every other deliverable one deliverable. */
  lemma OthersStayDeliverable(before: map<OutboxId, Envelope>, after: map<OutboxId, Envelope>, o: OutboxId, p: OutboxId)
    requires Acked(before, after, {o}) && Deliverable(before, p) && p != o
    ensures Deliverable(after, p)
  {
    assert p in Undelivered(after);
    forall q | q in after && after[q].execId == after[p].execId && after[q].deliveredAt.None?
      ensures after[p].revision <= after[q].revision
    {
      assert q in Undelivered(after);
      assert SamePlace(before[q], after[q]) && SamePlace(before[p], after[p]);
    }
  }

  /** Write a deliverable envelope to the sink, unless the sink raises first. */
  method WriteOne(h: Hash, store: Store, sink: SqliteAuditSink, o: OutboxId, trouble: Trouble)
    requires InStep(store, sink) && Deliverable(store.outbox, o)
    modifies sink
    ensures InStep(store, sink) && old(sink.rows) <= sink.rows
    ensures if trouble.BeforeWrite? then sink.rows == old(sink.rows) else HasSource(sink.rows, o)
  {
    if !trouble.BeforeWrite? {
      DeliverableWrites(h, store.Contents(), sink.Contents(), o);
      var _ := sink.WriteEvent(h, BodyOf(store.outbox[o].payload, o), Some(o));
    }
  }

  /** Acknowledge what was written. */
  method AcknowledgeOne(store: Store, sink: SqliteAuditSink, o: OutboxId, now: Time)
    requires InStep(store, sink) && HasSource(sink.rows, o) && o in Undelivered(store.outbox)
    modifies store`outbox
    ensures InStep(store, sink) && Acked(old(store.outbox), store.outbox, {o})
    ensures store.outbox == old(store.outbox)[o := old(store.outbox)[o].(deliveredAt := Some(now))]
  {
    AcknowledgeWritten(store.Contents(), sink.rows, o, now);
    AckOne(store.Contents(), o, now);
    var _ := store.MarkDelivered(o, now);
  }

  /** Note a failed delivery. */
  method NoteFailure(store: Store, sink: SqliteAuditSink, o: OutboxId)
    requires InStep(store, sink) && o in store.outbox
    modifies store`outbox
    ensures InStep(store, sink) && Acked(old(store.outbox), store.outbox, {})
    ensures var e := old(store.outbox)[o];
            store.outbox == if e.deliveredAt.Some? then old(store.outbox) else old(store.outbox)[o := e.(attempts := e.attempts + 1)]
  {
    FailureKeepsQueue(store.Contents(), sink.rows, o);
    AckNone(store.Contents(), o);
    var _ := store.RecordDeliveryFailure(o);
  }

  /** Deliver one envelope and acknowledge it, or note the failure. */
  method DeliverOne(h: Hash, store: Store, sink: SqliteAuditSink, o: OutboxId, trouble: Trouble, now: Time)
    returns (ok: bool)
    requires InStep(store, sink) && Deliverable(store.outbox, o)
    modifies store`outbox, sink
    ensures InStep(store, sink) && old(sink.rows) <= sink.rows
    ensures ok <==> trouble.Fine?
    ensures Acked(old(store.outbox), store.outbox, if Commits(trouble) then {o} else {})
    ensures var e := old(store.outbox)[o];
            store.outbox == old(store.outbox)[o := if Commits(trouble) then e.(deliveredAt := Some(now))
                                                   else e.(attempts := e.attempts + 1)]
    ensures if trouble.BeforeWrite? then sink.rows == old(sink.rows) else HasSource(sink.rows, o)
  {
    WriteOne(h, store, sink, o, trouble);
    ok := trouble.Fine?;
    if Commits(trouble) {
      AcknowledgeOne(store, sink, o, now);
    }
    if !ok {
      ghost var marked := store.outbox;
      NoteFailure(store, sink, o);
      ghost var acked := if Commits(trouble) then {o} else {};
      assert acked + {} == acked;
      assert !Commits(trouble) ==> Acked(old(store.outbox), marked, {});
      AckedAdds(old(store.outbox), marked, store.outbox, acked, {});
    }
  }

  predicate IsOf(outbox: map<OutboxId, Envelope>, only: Option<ExecId>, o: OutboxId) {
    o in outbox && (only.None? || outbox[o].execId == only.value)
  }

  predicate NonePending(outbox: map<OutboxId, Envelope>, only: Option<ExecId>) {
    forall o | o in outbox && (only.None? || outbox[o].execId == only.value) :: outbox[o].deliveredAt.Some?
  }

  /** When nothing eligible is pending, nothing at all is. */
  lemma NothingLeft(outbox: map<OutboxId, Envelope>, only: Option<ExecId>)
    requires forall p | p in outbox :: !Eligible(outbox, only, p)
    ensures NonePending(outbox, only)
  {
    forall o | o in outbox && (only.None? || outbox[o].execId == only.value) ensures outbox[o].deliveredAt.Some? {
      if outbox[o].deliveredAt.None? {
        var p := SomethingIsDeliverable(outbox, o);
      }
    }
  }

  /** The i-th envelope of a batch; those after it stay deliverable. */
  method DeliverNext(h: Hash, store: Store, sink: SqliteAuditSink, b: seq<OutboxId>, i: nat, trouble: Trouble, now: Time)
    returns (ok: bool)
    requires InStep(store, sink) && i < |b|
    requires forall j | i <= j < |b| :: Deliverable(store.outbox, b[j])
    requires forall j, k | 0 <= j < k < |b| :: b[j] != b[k]
    modifies store`outbox, sink
    ensures InStep(store, sink) && old(sink.rows) <= sink.rows
    ensures ok <==> trouble.Fine?
    ensures Acked(old(store.outbox), store.outbox, if Commits(trouble) then {b[i]} else {})
    ensures ok ==> forall j | i < j < |b| :: Deliverable(store.outbox, b[j])
  {
    ghost var before := store.outbox;
    ok := DeliverOne(h, store, sink, b[i], trouble, now);
    if ok {
      forall j | i < j < |b| ensures Deliverable(store.outbox, b[j]) {
        OthersStayDeliverable(before, store.outbox, b[i], b[j]);
      }
    }
  }

  lemma AckedAdds(x: map<OutboxId, Envelope>, y: map<OutboxId, Envelope>, z: map<OutboxId, Envelope>,
                  xs: set<OutboxId>, ys: set<OutboxId>)
    requires Acked(x, y, xs) && Acked(y, z, ys)
    ensures Acked(x, z, xs + ys) && |xs + ys| == |xs| + |ys|
  {
    assert xs !! ys;
  }

  lemma OneMoreFine(trouble: nat -> Trouble, from: nat, to: nat)
    requires AllFine(trouble, from, to) && trouble(to).Fine?
    ensures AllFine(trouble, from, to + 1)
  {
  }

  /** Deliver a batch of deliverable envelopes, stopping at the first failure. */
  method DeliverBatch(h: Hash, store: Store, sink: SqliteAuditSink, b: seq<OutboxId>, trouble: nat -> Trouble,
                      clock: nat -> Time, from: nat)
    returns (count: nat, failed: Option<OutboxId>, ghost acked: set<OutboxId>)
    requires InStep(store, sink)
    requires forall i | 0 <= i < |b| :: Deliverable(store.outbox, b[i])
    requires forall i, j | 0 <= i < j < |b| :: b[i] != b[j]
    modifies store`outbox, sink
    ensures InStep(store, sink) && old(sink.rows) <= sink.rows
    ensures Acked(old(store.outbox), store.outbox, acked) && forall o | o in acked :: o in b
    ensures AllFine(trouble, from, from + count)
    ensures failed.None? ==> count == |b| == |acked|
    ensures failed.Some? ==>
              && count < |b| && failed.value == b[count] && !trouble(from + count).Fine?
              && |acked| == (if trouble(from + count).AfterCommit? then count + 1 else count)
              && (failed.value in acked || failed.value in Undelivered(store.outbox))
  {
    count, acked := 0, {};
    while count < |b|
      invariant count <= |b|
      invariant InStep(store, sink) && old(sink.rows) <= sink.rows
      invariant Acked(old(store.outbox), store.outbox, acked) && |acked| == count && forall o | o in acked :: o in b
      invariant AllFine(trouble, from, from + count)
      invariant forall j | count <= j < |b| :: Deliverable(store.outbox, b[j])
    {
      ghost var before := store.outbox;
      ghost var more := if Commits(trouble(from + count)) then {b[count]} else {};
      assert b[count] in Undelivered(before);
      var ok := DeliverNext(h, store, sink, b, count, trouble(from + count), clock(from + count));
      AckedAdds(old(store.outbox), before, store.outbox, acked, more);
      acked := acked + more;
      if !ok {
        assert b[count] in more || b[count] in Undelivered(store.outbox);
        return count, Some(b[count]), acked;
      }
      OneMoreFine(trouble, from, from + count);
      count := count + 1;
    }
    failed := None;
  }

  /** Everything acknowledged since `start` belongs to the execution asked for. */
  ghost predicate AckedOf(start: map<OutboxId, Envelope>, outbox: map<OutboxId, Envelope>, acked: set<OutboxId>, only: Option<ExecId>) {
    Acked(start, outbox, acked) && forall o | o in acked :: IsOf(start, only, o)
  }

  lemma StillOf(start: map<OutboxId, Envelope>, now: map<OutboxId, Envelope>, acked: set<OutboxId>, only: Option<ExecId>, o: OutboxId)
    requires Acked(start, now, acked) && IsOf(now, only, o)
    ensures IsOf(start, only, o)
  {
    assert SamePlace(start[o], now[o]);
  }

  lemma AckedOfAdds(start: map<OutboxId, Envelope>, before: map<OutboxId, Envelope>, after: map<OutboxId, Envelope>,
                    acked: set<OutboxId>, more: set<OutboxId>, only: Option<ExecId>)
    requires AckedOf(start, before, acked, only) && Acked(before, after, more) && forall o | o in more :: IsOf(before, only, o)
    ensures AckedOf(start, after, acked + more, only) && |acked + more| == |acked| + |more|
  {
    AckedAdds(start, before, after, acked, more);
    forall o | o in more ensures IsOf(start, only, o) {
      StillOf(start, before, acked, only, o);
    }
  }

  /** Read one batch of at most `limit` envelopes and deliver it. */
  method ReadAndDeliver(h: Hash, store: Store, sink: SqliteAuditSink, only: Option<ExecId>, limit: int,
                        trouble: nat -> Trouble, clock: nat -> Time, from: nat)
    returns (count: nat, failed: Option<OutboxId>, ghost acked: set<OutboxId>)
    requires InStep(store, sink) && 1 <= limit <= 1000
    modifies store`outbox, sink
    ensures InStep(store, sink) && old(sink.rows) <= sink.rows
    ensures Acked(old(store.outbox), store.outbox, acked) && count <= limit
    ensures forall o | o in acked :: IsOf(old(store.outbox), only, o)
    ensures AllFine(trouble, from, from + count)
    ensures failed.None? ==> count == |acked| && (count == 0 ==> NonePending(store.outbox, only))
    ensures failed.Some? ==>
              && !trouble(from + count).Fine? && count < limit && IsOf(old(store.outbox), only, failed.value)
              && |acked| == (if trouble(from + count).AfterCommit? then count + 1 else count)
              && (failed.value in acked || failed.value in Undelivered(store.outbox))
  {
    var batch := PendingAuditEvents(store.outbox, only, limit);
    if batch.value == [] {
      NothingLeft(store.outbox, only);
      return 0, None, {};
    }
    count, failed, acked := DeliverBatch(h, store, sink, batch.value, trouble, clock, from);
  }

  /** One more batch, after those envelopes `acked` since `start`. */
  method DrainRound(h: Hash, store: Store, sink: SqliteAuditSink, only: Option<ExecId>, limit: int,
                    trouble: nat -> Trouble, clock: nat -> Time, from: nat,
                    ghost start: map<OutboxId, Envelope>, ghost acked: set<OutboxId>)
    returns (count: nat, failed: Option<OutboxId>, ghost acked': set<OutboxId>)
    requires InStep(store, sink) && 1 <= limit <= 1000 && AckedOf(start, store.outbox, acked, only)
    modifies store`outbox, sink
    ensures InStep(store, sink) && old(sink.rows) <= sink.rows
    ensures AckedOf(start, store.outbox, acked', only) && count <= limit
    ensures AllFine(trouble, from, from + count)
    ensures failed.None? ==> |acked'| == |acked| + count && (count == 0 ==> NonePending(store.outbox, only))
    ensures failed.Some? ==>
              && !trouble(from + count).Fine? && count < limit && IsOf(start, only, failed.value)
              && |acked'| == |acked| + (if trouble(from + count).AfterCommit? then count + 1 else count)
              && (failed.value in acked' || failed.value in Undelivered(store.outbox))
    ensures failed.None? && count > 0 ==> Undelivered(store.outbox) < Undelivered(old(store.outbox))
  {
    ghost var before, more := store.outbox, {};
    count, failed, more := ReadAndDeliver(h, store, sink, only, limit, trouble, clock, from);
    AckedOfAdds(start, before, store.outbox, acked, more, only);
    if failed.Some? {
      StillOf(start, before, acked, only, failed.value);
    } else if count > 0 {
      FewerPending(before, store.outbox, more);
    }
    acked' := acked + more;
  }

  lemma FewerPending(before: map<OutboxId, Envelope>, after: map<OutboxId, Envelope>, acked: set<OutboxId>)
    requires Acked(before, after, acked) && |acked| > 0
    ensures Undelivered(after) < Undelivered(before)
  {
    var o :| o in acked;
    assert o in Undelivered(before) && o !in Undelivered(after);
  }

  /** Deliver committed envelopes in revision order until nothing is pending, the limit is reached, or
      a delivery fails.  Of the `tried` deliveries all but the last one succeeded; a failure is raised
      exactly under `failClosed`, and otherwise ends the drain. */
  method Drain(h: Hash, store: Store, sink: SqliteAuditSink, only: Option<ExecId>, limit: Option<int>,
               failClosed: bool, trouble: nat -> Trouble, clock: nat -> Time)
    returns (reply: DrainReply, ghost acked: set<OutboxId>, ghost tried: nat)
    requires InStep(store, sink)
    modifies store`outbox, sink
    ensures InStep(store, sink) && old(sink.rows) <= sink.rows
    ensures AckedOf(old(store.outbox), store.outbox, acked, only)
    ensures reply.BadLimit? <==> limit.Some? && limit.value < 1
    ensures reply.BadLimit? ==> tried == 0
    ensures tried > 0 ==> AllFine(trouble, 0, tried - 1)
    ensures reply.DeliveryPending? <==> failClosed && tried > 0 && !trouble(tried - 1).Fine?
    ensures reply.DeliveryPending? ==>
              && IsOf(old(store.outbox), only, reply.outboxId)
              && (reply.outboxId in Undelivered(store.outbox) || reply.outboxId in acked)
    ensures reply.Drained? ==>
              && AllFine(trouble, 0, reply.count)
              && (limit.Some? ==> reply.count <= limit.value)
              && (tried == reply.count || (tried == reply.count + 1 && !trouble(reply.count).Fine?))
              && |acked| == (if tried > reply.count && trouble(reply.count).AfterCommit? then reply.count + 1 else reply.count)
    ensures reply.Drained? && tried == reply.count ==> limit == Some(reply.count) || NonePending(store.outbox, only)
    ensures (forall k :: trouble(k).Fine?) && !reply.BadLimit? ==> reply.Drained? && tried == reply.count
  {
    acked, tried := {}, 0;
    if limit.Some? && limit.value < 1 {
      return BadLimit, acked, tried;
    }
    var delivered := 0;
    while limit.None? || delivered < limit.value
      invariant InStep(store, sink) && old(sink.rows) <= sink.rows
      invariant AckedOf(old(store.outbox), store.outbox, acked, only) && |acked| == delivered == tried
      invariant AllFine(trouble, 0, delivered)
      invariant limit.Some? ==> delivered <= limit.value
      decreases Undelivered(store.outbox)
    {
      var batchLimit := if limit.None? || limit.value - delivered > 128 then 128 else limit.value - delivered;
      var count, failed, more := DrainRound(h, store, sink, only, batchLimit, trouble, clock, delivered, old(store.outbox), acked);
      acked := more;
      delivered := delivered + count;
      tried := if failed.Some? then delivered + 1 else delivered;
      if failed.Some? {
        return if failClosed then DeliveryPending(failed.value) else Drained(delivered), acked, tried;
      }
      if count == 0 {
        return Drained(delivered), acked, tried;
      }
    }
    reply := Drained(delivered);
  }
}
