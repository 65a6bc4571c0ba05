/** The transactional audit sink: one table of chained events and one row of tail state. */
module SqliteSink {
  import opened Basics
  import opened LedgerTypes
  import opened AuditChain

  /** The digest of a source payload is an injective image of the body, so the body stands for it. */
  datatype Row = Row(sequence: int, entry: Entry, indexHash: Digest, source: Option<OutboxId>, sourceDigest: Option<Body>)

  datatype Sink = Sink(rows: seq<Row>, lastSequence: int, lastHash: Digest)

  datatype SinkError = DifferentContent | BadSequence | BadEntry | IndexMismatch | TailMismatch

  predicate HasSource(rows: seq<Row>, o: OutboxId) {
    exists i | 0 <= i < |rows| :: rows[i].source == Some(o)
  }

  predicate HasOtherContent(rows: seq<Row>, o: OutboxId, body: Body) {
    exists i | 0 <= i < |rows| :: rows[i].source == Some(o) && rows[i].sourceDigest != Some(body)
  }

  function NextRow(h: Hash, s: Sink, body: Body, source: Option<OutboxId>): Row {
    var e := Prepare(h, body, s.lastSequence + 1, s.lastHash);
    Row(e.sequence, e, e.hash, source, if source.Some? then Some(body) else None)
  }

  /** Append an event; with a source id, append it once and treat an identical retry as done. */
  function Write(h: Hash, s: Sink, body: Body, source: Option<OutboxId>): Outcome<Sink, (), SinkError> {
    if source.Some? && HasSource(s.rows, source.value) then
      if HasOtherContent(s.rows, source.value, body) then Refused(DifferentContent) else Done(s, ())
    else
      var r := NextRow(h, s, body, source);
      Done(Sink(s.rows + [r], r.sequence, r.indexHash), ())
  }

  function Entries(rows: seq<Row>): (es: seq<Entry>)
    ensures |es| == |rows| && forall i | 0 <= i < |rows| :: es[i] == rows[i].entry
  {
    seq(|rows|, i requires 0 <= i < |rows| => rows[i].entry)
  }

  predicate WellFormed(h: Hash, s: Sink, genesis: Digest) {
    && Chained(h, Entries(s.rows), 0, genesis)
    && (forall i | 0 <= i < |s.rows| :: s.rows[i].sequence == i && s.rows[i].indexHash == s.rows[i].entry.hash)
    && s.lastSequence == |s.rows| - 1
    && s.lastHash == HashBefore(Entries(s.rows), |s.rows|, genesis)
  }

  /** Everything the sink writes reads back. */
  lemma WriteKeepsChain(h: Hash, s: Sink, genesis: Digest, body: Body, source: Option<OutboxId>)
    requires WellFormed(h, s, genesis) && Write(h, s, body, source).Done?
    ensures WellFormed(h, Write(h, s, body, source).state, genesis)
  {
    if !(source.Some? && HasSource(s.rows, source.value)) {
      var r := NextRow(h, s, body, source);
      ChainGrows(h, Entries(s.rows), 0, genesis, r.entry);
      assert Entries(s.rows + [r]) == Entries(s.rows) + [r.entry];
    }
  }

  /** The verifying reader: it accepts exactly the well-formed tables and then returns every event. */
  method ReadVerified(h: Hash, s: Sink, genesis: Digest) returns (r: Outcome<seq<Entry>, (), SinkError>)
    ensures r.Done? <==> WellFormed(h, s, genesis)
    ensures r.Done? ==> r.state == Entries(s.rows)
  {
    var events: seq<Entry> := [];
    var expectedPrev := genesis;
    for k := 0 to |s.rows|
      invariant |events| == k && events == Entries(s.rows)[..k]
      invariant expectedPrev == HashBefore(events, k, genesis)
      invariant Chained(h, events, 0, genesis)
      invariant forall i | 0 <= i < k :: s.rows[i].sequence == i && s.rows[i].indexHash == s.rows[i].entry.hash
    {
      var row := s.rows[k];
      if row.sequence != k {
        return Refused(BadSequence);
      }
      if !Verifies(h, row.entry, k, expectedPrev) {
        assert !LinkedAt(h, Entries(s.rows), k, 0, genesis);
        return Refused(BadEntry);
      }
      if row.indexHash != row.entry.hash {
        return Refused(IndexMismatch);
      }
      ChainGrows(h, events, 0, genesis, row.entry);
      expectedPrev := row.entry.hash;
      events := events + [row.entry];
    }
    assert events == Entries(s.rows);
    if s.lastSequence != |events| - 1 || s.lastHash != expectedPrev {
      return Refused(TailMismatch);
    }
    return Done(events, ());
  }

  /** The sink object: one transaction per write. */
  class SqliteAuditSink {
    var rows: seq<Row>
    var lastSequence: int
    var lastHash: Digest

    function Contents(): Sink
      reads this
    {
      Sink(rows, lastSequence, lastHash)
    }

    constructor (genesis: Digest)
      ensures Contents() == Sink([], -1, genesis)
    {
      rows, lastSequence, lastHash := [], -1, genesis;
    }

    /** Appends the event as the next row, once per source id: a retry leaves the table alone, and
        fails exactly when the stored content differs. */
    method WriteEvent(h: Hash, body: Body, source: Option<OutboxId>) returns (failure: Option<SinkError>)
      modifies this
      ensures match Write(h, old(Contents()), body, source)
              case Done(after, _) => Contents() == after && failure.None?
              case Refused(e) => Contents() == old(Contents()) && failure == Some(e)
      ensures if source.Some? && HasSource(old(rows), source.value) then
                && Contents() == old(Contents())
                && (failure.Some? <==> exists i | 0 <= i < |rows| :: rows[i].source == source && rows[i].sourceDigest != Some(body))
              else
                && failure.None? && |rows| == |old(rows)| + 1 && old(rows) <= rows
                && var r := rows[|old(rows)|];
                && r.source == source && r.entry.body == body && (source.Some? ==> r.sourceDigest == Some(body))
    {
      if source.Some? {
        if exists i | 0 <= i < |rows| :: rows[i].source == source {
          if exists i | 0 <= i < |rows| :: rows[i].source == source && rows[i].sourceDigest != Some(body) {
            return Some(DifferentContent);
          }
          return None;
        }
      }
      var sequence := lastSequence + 1;
      var e := Prepare(h, body, sequence, lastHash);
      rows := rows + [Row(sequence, e, e.hash, source, if source.Some? then Some(body) else None)];
      lastSequence, lastHash := sequence, e.hash;
      failure := None;
    }
  }

  /** Two stored tables that both read back and share their tail state hold the same events. */
  lemma TailDeterminesTable(h: Hash, s: Sink, u: Sink, genesis: Digest)
    requires CollisionFree(h) && WellFormed(h, s, genesis) && WellFormed(h, u, genesis)
    requires s.lastSequence == u.lastSequence && s.lastHash == u.lastHash
    ensures Entries(s.rows) == Entries(u.rows)
  {
    ChainDetermined(h, Entries(s.rows), Entries(u.rows), 0, genesis);
  }
}
