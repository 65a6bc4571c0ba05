/** Delivery of audit envelopes from the outbox to the sink by any number of drainers, any of
    which may crash between writing to the sink and acknowledging. */
module Delivery {
  import opened Basics
  import opened LedgerTypes
  import opened Operations
  import opened LedgerInvariant
  import opened LedgerSteps
  import opened Runs
  import opened AuditChain
  import opened SqliteSink

  /** What a drainer holds for one envelope it has read: a copy of the payload, and whether its
      own sink write has returned. */
  datatype Held = Held(payload: Payload, written: bool)

  datatype DrainerId = DrainerId(n: nat)

  datatype System = System(tables: Tables, sink: Sink, hands: Hands)

  datatype Move =
    | Ledger(step: Step)
    | ReadPending(drainer: DrainerId, batch: set<OutboxId>)
    | Deliver(drainer: DrainerId, outboxId: OutboxId)
    | Acknowledge(drainer: DrainerId, outboxId: OutboxId, now: Time)
    | Crash(drainer: DrainerId)
    | OtherWrite(json: Json)

  type Hands = map<DrainerId, map<OutboxId, Held>>

  predicate InHand(hands: Hands, d: DrainerId, o: OutboxId) {
    d in hands && o in hands[d]
  }

  predicate Holding(y: System, d: DrainerId, o: OutboxId) {
    InHand(y.hands, d, o)
  }

  /** Drainers only read deliverable envelopes, only write what they hold, and only acknowledge what
      they have written; nobody else acknowledges. */
  predicate Enabled(y: System, m: Move) {
    match m
    case Ledger(s) => !s.DeliveredCall?
    case ReadPending(_, batch) => forall o | o in batch :: Deliverable(y.tables.outbox, o)
    case Deliver(d, o) => Holding(y, d, o)
    case Acknowledge(d, o, _) => Holding(y, d, o) && y.hands[d][o].written
    case Crash(_) => true
    case OtherWrite(_) => true
  }

  function BodyOf(p: Payload, o: OutboxId): Body {
    Reconciliation(p, o)
  }

  function DeliverResult(h: Hash, y: System, d: DrainerId, o: OutboxId): Outcome<Sink, (), SinkError>
    requires Holding(y, d, o)
  {
    Write(h, y.sink, BodyOf(y.hands[d][o].payload, o), Some(o))
  }

  ghost function Do(h: Hash, y: System, m: Move): System
    requires Enabled(y, m)
  {
    match m
    case Ledger(s) => y.(tables := Apply(y.tables, s))
    case ReadPending(d, batch) =>
      var hand := map o | o in batch && o in y.tables.outbox :: Held(y.tables.outbox[o].payload, false);
      y.(hands := y.hands[d := hand])
    case Deliver(d, o) =>
      var r := DeliverResult(h, y, d, o);
      if r.Refused? then y
      else y.(sink := r.state, hands := y.hands[d := y.hands[d][o := y.hands[d][o].(written := true)]])
    case Acknowledge(d, o, now) => y.(tables := After(y.tables, MarkDelivered(y.tables, o, now)))
    case Crash(d) => y.(hands := y.hands - {d})
    case OtherWrite(json) =>
      var r := Write(h, y.sink, OtherEvent(json), None);
      if r.Refused? then y else y.(sink := r.state)
  }

  // ---------------------------------------------------------------- the delivery invariant

  predicate Delivered(outbox: map<OutboxId, Envelope>, o: OutboxId) {
    o in outbox && outbox[o].deliveredAt.Some?
  }

  predicate Precedes(p: Envelope, e: Envelope) {
    p.execId == e.execId && p.revision < e.revision
  }

  /** All earlier revisions of the execution are acknowledged. */
  predicate TurnHasCome(outbox: map<OutboxId, Envelope>, o: OutboxId) {
    o in outbox && forall p | p in outbox && Precedes(outbox[p], outbox[o]) :: Delivered(outbox, p)
  }

  /** A row that came from the outbox shows the envelope's payload, in its turn. */
  predicate RowOk(outbox: map<OutboxId, Envelope>, r: Row) {
    r.source.Some? ==>
      && TurnHasCome(outbox, r.source.value)
      && r.entry.body == BodyOf(outbox[r.source.value].payload, r.source.value)
      && r.sourceDigest == Some(r.entry.body)
  }

  predicate RowsOk(outbox: map<OutboxId, Envelope>, rows: seq<Row>) {
    forall i | 0 <= i < |rows| :: RowOk(outbox, rows[i])
  }

  predicate OncePerSource(rows: seq<Row>) {
    forall i, j | 0 <= i < j < |rows| && rows[i].source.Some? :: rows[i].source != rows[j].source
  }

  predicate InOrder(outbox: map<OutboxId, Envelope>, rows: seq<Row>) {
    forall i, j | 0 <= i < |rows| && 0 <= j < |rows| && SourcePrecedes(outbox, rows[i], rows[j]) :: i < j
  }

  predicate SourcePrecedes(outbox: map<OutboxId, Envelope>, r: Row, s: Row) {
    && r.source.Some? && s.source.Some? && r.source.value in outbox && s.source.value in outbox
    && Precedes(outbox[r.source.value], outbox[s.source.value])
  }

  ghost predicate AckedAreWritten(outbox: map<OutboxId, Envelope>, rows: seq<Row>) {
    forall o | Delivered(outbox, o) :: HasSource(rows, o)
  }

  predicate HandOk(outbox: map<OutboxId, Envelope>, rows: seq<Row>, o: OutboxId, x: Held) {
    && TurnHasCome(outbox, o)
    && x.payload == outbox[o].payload
    && (x.written ==> HasSource(rows, o))
  }

  ghost predicate HandsOk(outbox: map<OutboxId, Envelope>, rows: seq<Row>, hands: Hands) {
    forall d, o | InHand(hands, d, o) :: HandOk(outbox, rows, o, hands[d][o])
  }

  ghost predicate QueueOk(outbox: map<OutboxId, Envelope>, rows: seq<Row>, hands: Hands) {
    && RowsOk(outbox, rows)
    && OncePerSource(rows)
    && InOrder(outbox, rows)
    && AckedAreWritten(outbox, rows)
    && HandsOk(outbox, rows, hands)
  }

  ghost predicate SystemOk(y: System) {
    Inv(y.tables) && QueueOk(y.tables.outbox, y.sink.rows, y.hands)
  }

  // ---------------------------------------------------------------- the outbox grows at the end

  /** Envelopes keep their place and payload; acknowledgements stay; new ones come last. */
  ghost predicate Grows(outbox: map<OutboxId, Envelope>, outbox': map<OutboxId, Envelope>) {
    && (forall o | o in outbox :: o in outbox' && SamePlace(outbox[o], outbox'[o]))
    && (forall o, p | o in outbox' && o !in outbox && p in outbox :: !Precedes(outbox'[o], outbox'[p]))
  }

  predicate SamePlace(e: Envelope, e': Envelope) {
    e'.execId == e.execId && e'.revision == e.revision && e'.payload == e.payload
    && (e.deliveredAt.Some? ==> e'.deliveredAt.Some?)
  }

  lemma LedgerGrows(t: Tables, s: Step)
    requires Inv(t) && !s.DeliveredCall?
    ensures Grows(t.outbox, Apply(t, s).outbox)
    ensures forall o :: Delivered(Apply(t, s).outbox, o) ==> Delivered(t.outbox, o)
  {
    if s.DeliveryFailedCall? {
      FailureCallGrows(t, s);
    } else {
      ApplyKeeps(t, s);
      NewComeLast(t, Apply(t, s));
    }
  }

  lemma FailureCallGrows(t: Tables, s: Step)
    requires s.DeliveryFailedCall?
    ensures Grows(t.outbox, Apply(t, s).outbox)
    ensures forall o :: Delivered(Apply(t, s).outbox, o) ==> Delivered(t.outbox, o)
  {
    FailureMarkGrows(t, s.outboxId);
  }

  lemma FailureMarkGrows(t: Tables, o: OutboxId)
    ensures var outbox' := After(t, RecordDeliveryFailure(t, o)).outbox;
            Grows(t.outbox, outbox') && forall p :: Delivered(outbox', p) ==> Delivered(t.outbox, p)
  {
  }

  lemma DeliveryMarkGrows(t: Tables, o: OutboxId, now: Time)
    ensures var outbox' := After(t, MarkDelivered(t, o, now)).outbox;
            Grows(t.outbox, outbox') && forall p :: Delivered(outbox', p) ==> Delivered(t.outbox, p) || p == o
  {
  }

  lemma NewComeLast(t: Tables, t': Tables)
    requires LogsOk(t) && OutboxOk(t) && Extends(t, t')
    ensures Grows(t.outbox, t'.outbox)
    ensures forall o :: Delivered(t'.outbox, o) ==> Delivered(t.outbox, o)
  {
    forall o, p | o in t'.outbox && o !in t.outbox && p in t.outbox ensures !Precedes(t'.outbox[o], t'.outbox[p]) {
      var e := t.outbox[p];
      assert Truthful(e, t.heads, t.events);
      assert Later(t'.outbox[o], t.heads);
      assert HeadOk(t.heads[e.execId], t.events[e.execId]);
      ReplayShape(t.heads[e.execId].action, t.heads[e.execId].updatedAt, t.events[e.execId]);
    }
  }

  lemma TurnStays(outbox: map<OutboxId, Envelope>, outbox': map<OutboxId, Envelope>, o: OutboxId)
    requires Grows(outbox, outbox') && TurnHasCome(outbox, o)
    ensures TurnHasCome(outbox', o)
  {
  }

  lemma RowsStay(outbox: map<OutboxId, Envelope>, outbox': map<OutboxId, Envelope>, rows: seq<Row>)
    requires Grows(outbox, outbox') && RowsOk(outbox, rows) && InOrder(outbox, rows)
    ensures RowsOk(outbox', rows) && InOrder(outbox', rows)
  {
    forall i | 0 <= i < |rows| ensures RowOk(outbox', rows[i]) {
      assert RowOk(outbox, rows[i]);
      if rows[i].source.Some? {
        TurnStays(outbox, outbox', rows[i].source.value);
      }
    }
    forall i, j | 0 <= i < |rows| && 0 <= j < |rows| && SourcePrecedes(outbox', rows[i], rows[j]) ensures i < j {
      assert RowOk(outbox, rows[i]) && RowOk(outbox, rows[j]);
      assert SourcePrecedes(outbox, rows[i], rows[j]);
    }
  }

  lemma HandsStay(outbox: map<OutboxId, Envelope>, outbox': map<OutboxId, Envelope>, rows: seq<Row>, hands: Hands)
    requires Grows(outbox, outbox') && HandsOk(outbox, rows, hands)
    ensures HandsOk(outbox', rows, hands)
  {
    forall d, o | InHand(hands, d, o) ensures HandOk(outbox', rows, o, hands[d][o]) {
      TurnStays(outbox, outbox', o);
    }
  }

  /** The outbox moves on; nothing is acknowledged that is not in the sink. */
  lemma OutboxMoveKeeps(outbox: map<OutboxId, Envelope>, outbox': map<OutboxId, Envelope>, rows: seq<Row>, hands: Hands)
    requires QueueOk(outbox, rows, hands) && Grows(outbox, outbox') && AckedAreWritten(outbox', rows)
    ensures QueueOk(outbox', rows, hands)
  {
    RowsStay(outbox, outbox', rows);
    HandsStay(outbox, outbox', rows, hands);
  }

  // ---------------------------------------------------------------- sink writes

  /** Appending an envelope in its turn keeps every row in order and every source single. */
  lemma AppendInTurn(outbox: map<OutboxId, Envelope>, rows: seq<Row>, o: OutboxId, r: Row)
    requires RowsOk(outbox, rows) && OncePerSource(rows) && InOrder(outbox, rows) && AckedAreWritten(outbox, rows)
    requires TurnHasCome(outbox, o) && !HasSource(rows, o)
    requires r.source == Some(o) && RowOk(outbox, r)
    ensures RowsOk(outbox, rows + [r]) && OncePerSource(rows + [r]) && InOrder(outbox, rows + [r])
  {
    var rows' := rows + [r];
    forall i, j | 0 <= i < |rows'| && 0 <= j < |rows'| && SourcePrecedes(outbox, rows'[i], rows'[j]) ensures i < j {
      if j < |rows| {
        assert RowOk(outbox, rows[j]);
        assert i < |rows| ==> SourcePrecedes(outbox, rows[i], rows[j]);
      }
    }
  }

  lemma AppendOther(outbox: map<OutboxId, Envelope>, rows: seq<Row>, r: Row)
    requires RowsOk(outbox, rows) && OncePerSource(rows) && InOrder(outbox, rows) && r.source.None?
    ensures RowsOk(outbox, rows + [r]) && OncePerSource(rows + [r]) && InOrder(outbox, rows + [r])
  {
    var rows' := rows + [r];
    forall i, j | 0 <= i < |rows'| && 0 <= j < |rows'| && SourcePrecedes(outbox, rows'[i], rows'[j]) ensures i < j {
      assert SourcePrecedes(outbox, rows[i], rows[j]);
    }
  }

  lemma SourcesStay(rows: seq<Row>, r: Row, o: OutboxId)
    ensures HasSource(rows, o) ==> HasSource(rows + [r], o)
    ensures r.source == Some(o) ==> HasSource(rows + [r], o)
  {
    if HasSource(rows, o) {
      var i :| 0 <= i < |rows| && rows[i].source == Some(o);
      assert (rows + [r])[i] == rows[i];
    }
    assert (rows + [r])[|rows|] == r;
  }

  /** A longer sink keeps acknowledgements and hands in step. */
  lemma LongerSinkKeeps(outbox: map<OutboxId, Envelope>, rows: seq<Row>, hands: Hands, r: Row)
    requires AckedAreWritten(outbox, rows) && HandsOk(outbox, rows, hands)
    ensures AckedAreWritten(outbox, rows + [r]) && HandsOk(outbox, rows + [r], hands)
  {
    forall o | Delivered(outbox, o) ensures HasSource(rows + [r], o) {
      SourcesStay(rows, r, o);
    }
    forall d, o | InHand(hands, d, o) ensures HandOk(outbox, rows + [r], o, hands[d][o]) {
      SourcesStay(rows, r, o);
    }
  }

  /** A retry never meets different content under its id. */
  lemma RetryIsSafe(h: Hash, y: System, d: DrainerId, o: OutboxId)
    requires QueueOk(y.tables.outbox, y.sink.rows, y.hands) && Holding(y, d, o)
    ensures DeliverResult(h, y, d, o).Done?
    ensures HasSource(y.sink.rows, o) ==> DeliverResult(h, y, d, o).state == y.sink
  {
    assert HandOk(y.tables.outbox, y.sink.rows, o, y.hands[d][o]);
    SourceShowsPayload(y.tables.outbox, y.sink.rows, o);
  }

  lemma SourceShowsPayload(outbox: map<OutboxId, Envelope>, rows: seq<Row>, o: OutboxId)
    requires RowsOk(outbox, rows) && o in outbox
    ensures !HasOtherContent(rows, o, BodyOf(outbox[o].payload, o))
  {
    forall i | 0 <= i < |rows| && rows[i].source == Some(o) ensures rows[i].sourceDigest == Some(BodyOf(outbox[o].payload, o)) {
      assert RowOk(outbox, rows[i]);
    }
  }

  // ---------------------------------------------------------------- one move

  lemma LedgerMoveKeeps(y: System, s: Step)
    requires SystemOk(y) && !s.DeliveredCall?
    ensures SystemOk(y.(tables := Apply(y.tables, s)))
  {
    ApplyKeeps(y.tables, s);
    LedgerGrows(y.tables, s);
    OutboxMoveKeeps(y.tables.outbox, Apply(y.tables, s).outbox, y.sink.rows, y.hands);
  }

  lemma ReadKeeps(outbox: map<OutboxId, Envelope>, rows: seq<Row>, hands: Hands, d: DrainerId, batch: set<OutboxId>)
    requires HandsOk(outbox, rows, hands) && forall o | o in batch :: Deliverable(outbox, o)
    ensures HandsOk(outbox, rows, hands[d := map o | o in batch && o in outbox :: Held(outbox[o].payload, false)])
  {
    var hands' := hands[d := map o | o in batch && o in outbox :: Held(outbox[o].payload, false)];
    forall e, o | InHand(hands', e, o) ensures HandOk(outbox, rows, o, hands'[e][o]) {
      if e == d {
        assert Deliverable(outbox, o);
      } else {
        assert InHand(hands, e, o);
      }
    }
  }

  lemma DeliverKeeps(h: Hash, y: System, d: DrainerId, o: OutboxId)
    requires QueueOk(y.tables.outbox, y.sink.rows, y.hands) && Holding(y, d, o)
    ensures var y' := Do(h, y, Deliver(d, o)); y'.tables == y.tables && QueueOk(y'.tables.outbox, y'.sink.rows, y'.hands)
  {
    RetryIsSafe(h, y, d, o);
    var outbox, rows := y.tables.outbox, y.sink.rows;
    assert HandOk(outbox, rows, o, y.hands[d][o]);
    if HasSource(rows, o) {
      WrittenKeeps(outbox, rows, y.hands, d, o);
    } else {
      var r := NextRow(h, y.sink, BodyOf(y.hands[d][o].payload, o), Some(o));
      AppendInTurn(outbox, rows, o, r);
      LongerSinkKeeps(outbox, rows, y.hands, r);
      SourcesStay(rows, r, o);
      WrittenKeeps(outbox, rows + [r], y.hands, d, o);
    }
  }

  lemma WrittenKeeps(outbox: map<OutboxId, Envelope>, rows: seq<Row>, hands: Hands, d: DrainerId, o: OutboxId)
    requires HandsOk(outbox, rows, hands) && InHand(hands, d, o) && HasSource(rows, o)
    ensures HandsOk(outbox, rows, hands[d := hands[d][o := hands[d][o].(written := true)]])
  {
    var hands' := hands[d := hands[d][o := hands[d][o].(written := true)]];
    forall e, p | InHand(hands', e, p) ensures HandOk(outbox, rows, p, hands'[e][p]) {
      assert InHand(hands, e, p);
    }
  }

  lemma AcknowledgeKeeps(t: Tables, rows: seq<Row>, hands: Hands, d: DrainerId, o: OutboxId, now: Time)
    requires QueueOk(t.outbox, rows, hands) && InHand(hands, d, o) && hands[d][o].written
    ensures QueueOk(After(t, MarkDelivered(t, o, now)).outbox, rows, hands)
  {
    assert HandOk(t.outbox, rows, o, hands[d][o]);
    DeliveryMarkGrows(t, o, now);
    OutboxMoveKeeps(t.outbox, After(t, MarkDelivered(t, o, now)).outbox, rows, hands);
  }

  /** Every move of a drainer or of another writer keeps the queue in step. */
  lemma QueueMoveKeeps(h: Hash, y: System, m: Move)
    requires QueueOk(y.tables.outbox, y.sink.rows, y.hands) && Enabled(y, m) && !m.Ledger?
    ensures var y' := Do(h, y, m); QueueOk(y'.tables.outbox, y'.sink.rows, y'.hands)
    ensures !m.Acknowledge? ==> Do(h, y, m).tables == y.tables
  {
    match m
    case ReadPending(d, batch) => ReadKeeps(y.tables.outbox, y.sink.rows, y.hands, d, batch);
    case Deliver(d, o) => DeliverKeeps(h, y, d, o);
    case Acknowledge(d, o, now) => AcknowledgeKeeps(y.tables, y.sink.rows, y.hands, d, o, now);
    case Crash(d) =>
      forall e, o | InHand(y.hands - {d}, e, o) ensures InHand(y.hands, e, o) {}
    case OtherWrite(json) =>
      var r := NextRow(h, y.sink, OtherEvent(json), None);
      AppendOther(y.tables.outbox, y.sink.rows, r);
      LongerSinkKeeps(y.tables.outbox, y.sink.rows, y.hands, r);
  }

  /** What a move does to the tables, as a ledger step. */
  lemma MoveAsStep(h: Hash, y: System, m: Move)
    requires Enabled(y, m)
    ensures Do(h, y, m).tables ==
              match m
              case Ledger(s) => Apply(y.tables, s)
              case Acknowledge(_, o, now) => Apply(y.tables, DeliveredCall(o, now))
              case _ => y.tables
  {
  }

  lemma TablesStayOk(h: Hash, y: System, m: Move)
    requires Inv(y.tables) && Enabled(y, m)
    ensures Inv(Do(h, y, m).tables)
  {
    MoveAsStep(h, y, m);
    if m.Ledger? {
      ApplyKeeps(y.tables, m.step);
    } else if m.Acknowledge? {
      ApplyKeeps(y.tables, DeliveredCall(m.outboxId, m.now));
    }
  }

  lemma MoveKeeps(h: Hash, y: System, m: Move)
    requires SystemOk(y) && Enabled(y, m)
    ensures SystemOk(Do(h, y, m))
  {
    if m.Ledger? {
      LedgerMoveKeeps(y, m.step);
    } else {
      QueueMoveKeeps(h, y, m);
      TablesStayOk(h, y, m);
    }
  }

  // ---------------------------------------------------------------- whole runs

  ghost predicate EnabledRun(h: Hash, y: System, moves: seq<Move>)
    decreases |moves|
  {
    moves == [] || (Enabled(y, moves[0]) && EnabledRun(h, Do(h, y, moves[0]), moves[1..]))
  }

  ghost function RunMoves(h: Hash, y: System, moves: seq<Move>): System
    requires EnabledRun(h, y, moves)
    decreases |moves|
  {
    if moves == [] then y else RunMoves(h, Do(h, y, moves[0]), moves[1..])
  }

  /** A new sink beside tables without audit events, and nobody draining. */
  function Quiet(t: Tables, genesis: Digest): System {
    System(t, Sink([], -1, genesis), map[])
  }

  lemma RunMovesKeep(h: Hash, y: System, moves: seq<Move>)
    requires SystemOk(y) && EnabledRun(h, y, moves)
    ensures SystemOk(RunMoves(h, y, moves))
    decreases |moves|
  {
    if moves != [] {
      MoveKeeps(h, y, moves[0]);
      RunMovesKeep(h, Do(h, y, moves[0]), moves[1..]);
    }
  }

  /** Exactly-once, in-order delivery.  In every run: no outbox id is in the sink twice, each row
      shows its envelope's payload, each execution's rows are in revision order without a gap, its
      acknowledged envelopes form a prefix of the revisions and are all in the sink, and no
      delivery is ever refused. */
  lemma ExactlyOnceInOrder(h: Hash, t: Tables, genesis: Digest, moves: seq<Move>)
    requires Inv(t) && t.outbox == map[] && EnabledRun(h, Quiet(t, genesis), moves)
    ensures var y := RunMoves(h, Quiet(t, genesis), moves);
            var outbox, rows := y.tables.outbox, y.sink.rows;
            && (forall i, j | 0 <= i < j < |rows| && rows[i].source.Some? :: rows[i].source != rows[j].source)
            && (forall i | 0 <= i < |rows| && rows[i].source.Some? ::
                  rows[i].source.value in outbox
                  && rows[i].entry.body == Reconciliation(outbox[rows[i].source.value].payload, rows[i].source.value))
            && (forall i, j | 0 <= i < |rows| && 0 <= j < |rows| && SourcePrecedes(outbox, rows[i], rows[j]) :: i < j)
            && (forall o, p | HasSource(rows, o) && o in outbox && p in outbox && Precedes(outbox[p], outbox[o]) ::
                  HasSource(rows, p))
            && (forall o, p | Delivered(outbox, o) && p in outbox && Precedes(outbox[p], outbox[o]) :: Delivered(outbox, p))
            && (forall o | Delivered(outbox, o) :: HasSource(rows, o))
            && (forall d, o | Holding(y, d, o) :: DeliverResult(h, y, d, o).Done?)
  {
    RunMovesKeep(h, Quiet(t, genesis), moves);
    var y := RunMoves(h, Quiet(t, genesis), moves);
    WrittenMeansTurn(y);
    forall d, o | Holding(y, d, o) ensures DeliverResult(h, y, d, o).Done? {
      RetryIsSafe(h, y, d, o);
    }
  }

  lemma WrittenMeansTurn(y: System)
    requires SystemOk(y)
    ensures forall o | HasSource(y.sink.rows, o) :: TurnHasCome(y.tables.outbox, o)
  {
    forall o | HasSource(y.sink.rows, o) ensures TurnHasCome(y.tables.outbox, o) {
      var i :| 0 <= i < |y.sink.rows| && y.sink.rows[i].source == Some(o);
      assert RowOk(y.tables.outbox, y.sink.rows[i]);
    }
  }

  /** An undelivered envelope leaves something deliverable, so draining can always go on. */
  lemma SomethingIsDeliverable(outbox: map<OutboxId, Envelope>, o: OutboxId) returns (p: OutboxId)
    requires o in outbox && outbox[o].deliveredAt.None?
    ensures Deliverable(outbox, p) && outbox[p].execId == outbox[o].execId
    decreases outbox[o].revision
  {
    if Deliverable(outbox, o) {
      p := o;
    } else {
      var q :| q in outbox && outbox[q].execId == outbox[o].execId && outbox[q].deliveredAt.None?
               && outbox[q].revision < outbox[o].revision;
      p := SomethingIsDeliverable(outbox, q);
    }
  }
}
