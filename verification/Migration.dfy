/** Migration of a legacy idempotency table, one row per key, into generation-one records. */
module Migration {
  import opened Basics
  import opened LedgerTypes
  import opened Operations
  import opened LedgerInvariant
  import opened LedgerSteps
  import opened Runs
  import opened Ownership

  /** What a legacy state column may hold. */
  datatype LegacyState = Known(state: RecordState) | Unrecognized

  /** A stored result that parses as JSON, or does not. */
  datatype LegacyJson = Parses(json: Json) | Garbage

  /** A lease deadline with a timezone, or anything else. */
  datatype LegacyLease = Deadline(at: Time) | Malformed

  /** A row, with the identity drawn for it in case it has none. */
  datatype LegacyRow = LegacyRow(
    namespace: Namespace,
    key: Key,
    fingerprint: Fingerprint,
    state: LegacyState,
    result: Option<LegacyJson>,
    error: Option<Text>,
    owner: Option<Token>,
    lease: Option<LegacyLease>,
    updatedAt: Time,
    execId: Option<ExecId>,
    drawnId: ExecId)

  /** The error already there unless it is missing or blank. */
  function Or(error: Option<Text>, message: Text): Option<Text> {
    if error.None? || error.value == Blank then Some(message) else error
  }

  /** The lease of a pending row can be trusted. */
  predicate Trustworthy(row: LegacyRow) {
    row.owner.Some? && row.lease.Some? && row.lease.value.Deadline? && row.result.None? && row.error.None?
  }

  /** Normalise one legacy row: the table CHECKs hold, and nothing is made to look more certain than
      the row was. */
  method NormalizeLegacyRow(row: LegacyRow) returns (r: Record)
    ensures RowChecks(r) && r.generation == 1
    ensures r.namespace == row.namespace && r.key == row.key && r.fingerprint == row.fingerprint && r.updatedAt == row.updatedAt
    ensures r.state == Pending <==> row.state == Known(Pending) && Trustworthy(row)
    ensures r.state == Pending ==> r.owner == row.owner && r.lease == Some(row.lease.value.at) && r.error.None?
    ensures r.state == Completed <==> row.state == Known(Completed) && row.result.Some? && row.result.value.Parses?
    ensures r.state == Completed ==> r.result == Some(row.result.value.json)
    ensures r.state == AppliedNoResult <==>
              row.state == Known(AppliedNoResult)
              || (row.state == Known(Completed) && !(row.result.Some? && row.result.value.Parses?))
    ensures r.state == NotApplied <==> row.state == Known(NotApplied)
    ensures r.state == ManualReview <==> row.state == Known(ManualReview)
    ensures row.error.Some? && row.error.value != Blank && r.state != Completed ==> r.error == row.error
    ensures row.error.None? || row.error.value == Blank ==>
              r.error == match row.state
                         case Unrecognized => Some(LegacyStateUnrecognized)
                         case Known(Pending) => if Trustworthy(row) then None else Some(LegacyLeaseUntrusted)
                         case Known(Completed) =>
                           if row.result.None? then Some(LegacyResultMissing)
                           else if row.result.value.Garbage? then Some(LegacyResultInvalid)
                           else None
                         case Known(_) => row.error
  {
    var state := if row.state.Known? then row.state.state else Unknown;
    var result := row.result;
    var error := row.error;
    var owner := row.owner;
    var lease := row.lease;
    if row.state.Unrecognized? {
      error := Or(error, LegacyStateUnrecognized);
    }
    if state == Pending {
      var leaseValid := owner.Some? && lease.Some? && lease.value.Deadline?;
      if !leaseValid || result.Some? || error.Some? {
        error := Or(error, LegacyLeaseUntrusted);
        state := Unknown;
      }
    }
    if state != Pending {
      owner := None;
      lease := None;
    }
    if state == Completed {
      if result.None? {
        state := AppliedNoResult;
        error := Or(error, LegacyResultMissing);
      } else if result.value.Garbage? {
        state := AppliedNoResult;
        result := None;
        error := Or(error, LegacyResultInvalid);
      }
    }
    if state != Completed {
      result := None;
    } else {
      error := None;
    }
    r := Record(row.namespace, row.key, 1, row.fingerprint, state,
                if result.Some? then Some(result.value.json) else None, error, owner,
                if lease.Some? then Some(lease.value.at) else None, row.updatedAt);
  }

  /** The identity a migrated row gets: its own if it has one, else the drawn one. */
  function MigratedId(row: LegacyRow): ExecId {
    if row.execId.Some? then row.execId.value else row.drawnId
  }

  predicate Clash(x: LegacyRow, y: LegacyRow) {
    MigratedId(x) == MigratedId(y) || (x.namespace == y.namespace && x.key == y.key)
  }

  /** Among the first `k` rows, keys and identities are distinct. */
  predicate Distinct(rows: seq<LegacyRow>, k: nat)
    requires k <= |rows|
  {
    forall i, j | 0 <= i < j < k :: !Clash(rows[i], rows[j])
  }

  /** A record carries a legacy row over. */
  predicate CarriesOver(r: Record, row: LegacyRow) {
    && RowChecks(r) && r.generation == 1
    && r.namespace == row.namespace && r.key == row.key && r.fingerprint == row.fingerprint
    && (r.state == NotApplied ==> row.state == Known(NotApplied))
    && (r.state == Completed ==> row.result == Some(Parses(r.result.value)))
    && (r.state == Pending ==> r.owner == row.owner && row.lease == Some(Deadline(r.lease.value)))
  }

  predicate Holds(records: map<ExecId, Record>, row: LegacyRow) {
    MigratedId(row) in records && CarriesOver(records[MigratedId(row)], row)
  }

  predicate ComesFrom(id: ExecId, rows: seq<LegacyRow>, k: nat)
    requires k <= |rows|
  {
    exists i | 0 <= i < k :: MigratedId(rows[i]) == id
  }

  /** The records are exactly the first `k` rows under their identities. */
  predicate IsImage(records: map<ExecId, Record>, rows: seq<LegacyRow>, k: nat)
    requires k <= |rows|
  {
    && (forall i | 0 <= i < k :: Holds(records, rows[i]))
    && (forall id | id in records :: ComesFrom(id, rows, k))
  }

  /** Copy every row into the new table; the primary key and the key-and-generation constraint
      refuse duplicates.  It succeeds exactly for distinct keys and identities. */
  method MigrateLegacyRecords(rows: seq<LegacyRow>) returns (migrated: Option<map<ExecId, Record>>)
    ensures migrated.Some? <==> Distinct(rows, |rows|)
    ensures migrated.Some? ==> IsImage(migrated.value, rows, |rows|)
  {
    var records: map<ExecId, Record> := map[];
    for k := 0 to |rows|
      invariant IsImage(records, rows, k) && Distinct(rows, k)
    {
      var id := MigratedId(rows[k]);
      var r := NormalizeLegacyRow(rows[k]);
      if id in records || exists j | j in records ::
           records[j].namespace == r.namespace && records[j].key == r.key && records[j].generation == r.generation {
        ClashFound(records, rows, k, r);
        return None;
      }
      ImageGrows(records, rows, k, r);
      records := records[id := r];
    }
    migrated := Some(records);
  }

  lemma ClashFound(records: map<ExecId, Record>, rows: seq<LegacyRow>, k: nat, r: Record)
    requires k < |rows| && IsImage(records, rows, k) && r.namespace == rows[k].namespace && r.key == rows[k].key
    requires MigratedId(rows[k]) in records || exists j | j in records :: records[j].namespace == r.namespace && records[j].key == r.key
    ensures !Distinct(rows, |rows|)
  {
    var j := MigratedId(rows[k]);
    if j !in records {
      j :| j in records && records[j].namespace == r.namespace && records[j].key == r.key;
    }
    assert ComesFrom(j, rows, k);
    var i :| 0 <= i < k && MigratedId(rows[i]) == j;
    assert Holds(records, rows[i]);
    assert Clash(rows[i], rows[k]);
  }

  lemma ImageGrows(records: map<ExecId, Record>, rows: seq<LegacyRow>, k: nat, r: Record)
    requires k < |rows| && IsImage(records, rows, k) && Distinct(rows, k) && CarriesOver(r, rows[k])
    requires MigratedId(rows[k]) !in records
    requires forall j | j in records :: !(records[j].namespace == r.namespace && records[j].key == r.key)
    ensures IsImage(records[MigratedId(rows[k]) := r], rows, k + 1) && Distinct(rows, k + 1)
  {
    var id, next := MigratedId(rows[k]), k + 1;
    forall j | j in records[id := r] ensures ComesFrom(j, rows, next) {
      if j != id {
        assert ComesFrom(j, rows, k);
      }
    }
    forall i | 0 <= i < k ensures !Clash(rows[i], rows[k]) && Holds(records[id := r], rows[i]) {
      assert Holds(records, rows[i]);
    }
  }

  // ---------------------------------------------------------------- after the migration

  /** A migrated table satisfies the generation invariant. */
  lemma MigratedRecordsOk(records: map<ExecId, Record>, rows: seq<LegacyRow>)
    requires IsImage(records, rows, |rows|) && Distinct(rows, |rows|)
    ensures RecordsOk(records)
  {
    forall id | id in records ensures RowChecks(records[id]) && records[id].generation == 1 {
      var i := SourceOf(records, rows, id);
    }
    forall a, b | a in records && b in records && a != b ensures !SameKey(records[a], records[b]) {
      var i := SourceOf(records, rows, a);
      var j := SourceOf(records, rows, b);
      assert !Clash(if i < j then rows[i] else rows[j], if i < j then rows[j] else rows[i]);
    }
  }

  /** So the store can go on from it: with no heads yet, every invariant of the tables holds. */
  lemma MigratedTablesOk(records: map<ExecId, Record>, rows: seq<LegacyRow>)
    requires IsImage(records, rows, |rows|) && Distinct(rows, |rows|)
    ensures Inv(EMPTY.(records := records))
  {
    MigratedRecordsOk(records, rows);
  }

  lemma SourceOf(records: map<ExecId, Record>, rows: seq<LegacyRow>, id: ExecId) returns (i: nat)
    requires IsImage(records, rows, |rows|) && id in records
    ensures i < |rows| && MigratedId(rows[i]) == id && CarriesOver(records[id], rows[i])
  {
    assert ComesFrom(id, rows, |rows|);
    i :| 0 <= i < |rows| && MigratedId(rows[i]) == id;
    assert Holds(records, rows[i]);
  }

  /** After a migration a key it brought can be acquired by a new owner only if its legacy row was
      confirmed not applied, which a row of the oldest schema never is. */
  lemma MigratedKeysStayTaken(records: map<ExecId, Record>, rows: seq<LegacyRow>, i: nat, t: Tables, q: AcquireArgs)
    requires IsImage(records, rows, |rows|) && Distinct(rows, |rows|) && i < |rows|
    requires t.records == records && q.namespace == rows[i].namespace && q.key == rows[i].key
    ensures Acquire(t, q).Done? && Acquire(t, q).value.Owner? ==> rows[i].state == Known(NotApplied)
  {
    MigratedRecordsOk(records, rows);
    var id := MigratedId(rows[i]);
    assert Holds(records, rows[i]);
    LatestFindsARow(records, q.namespace, q.key, id);
    var latest := Latest(records, q.namespace, q.key).value;
    var j := SourceOf(records, rows, latest);
    OneRowPerKey(rows, i, j);
  }

  lemma OneRowPerKey(rows: seq<LegacyRow>, i: nat, j: nat)
    requires Distinct(rows, |rows|) && i < |rows| && j < |rows|
    requires rows[i].namespace == rows[j].namespace && rows[i].key == rows[j].key
    ensures i == j
  {
    assert Clash(rows[i], rows[j]) && Clash(rows[j], rows[i]);
  }

  // ---------------------------------------------------------------- runs from migrated tables

  /** Owner tokens are drawn at random, so no two pending rows share one. */
  predicate DistinctOwners(records: map<ExecId, Record>) {
    forall a, b | a in records && b in records && a != b && records[a].owner.Some? :: records[a].owner != records[b].owner
  }

  function ClaimOf(id: ExecId, r: Record): Effect
    requires r.owner.Some? && r.lease.Some?
  {
    Claimed(r.namespace, r.key, id, r.owner.value, r.fingerprint, r.lease.value, r.updatedAt)
  }

  /** List the owners of the given rows. */
  lemma ListOwners(records: map<ExecId, Record>, ids: set<ExecId>) returns (hist: seq<Effect>)
    requires forall id | id in ids :: id in records && records[id].owner.Some? && records[id].lease.Some?
    ensures forall i | 0 <= i < |hist| ::
              hist[i].Claimed? && hist[i].execId in ids && hist[i] == ClaimOf(hist[i].execId, records[hist[i].execId])
    ensures forall i, j | 0 <= i < j < |hist| :: hist[i].execId != hist[j].execId
    ensures forall id | id in ids :: ClaimedBy(hist, records[id].owner.value, id)
    decreases ids
  {
    hist := [];
    if ids != {} {
      var id :| id in ids;
      var rest := ListOwners(records, ids - {id});
      hist := rest + [ClaimOf(id, records[id])];
      forall j | j in ids ensures ClaimedBy(hist, records[j].owner.value, j) {
        if j != id {
          ClaimsExtend(rest, hist[|rest|], records[j].owner.value, j);
        } else {
          assert hist[|rest|].execId == j;
        }
      }
    }
  }

  /** A migrated table is a place for runs to start, so every theorem about runs holds from there. */
  lemma MigratedIsStart(records: map<ExecId, Record>, rows: seq<LegacyRow>) returns (w: World)
    requires IsImage(records, rows, |rows|) && Distinct(rows, |rows|) && DistinctOwners(records)
    ensures IsStart(w) && w.tables == EMPTY.(records := records)
  {
    MigratedRecordsOk(records, rows);
    forall id | id in records && records[id].owner.Some? ensures records[id].lease.Some? {
      assert RowChecks(records[id]);
    }
    var hist := ListOwners(records, set id | id in records && records[id].owner.Some?);
    w := World(EMPTY.(records := records), hist);
    forall i | 0 <= i < |hist| ensures Guards(records, hist[i]) && records[hist[i].execId].state == Pending {
      assert RowChecks(records[hist[i].execId]);
    }
  }

  /** In every run from a migrated table, a new owner of a key whose legacy row was not confirmed not
      applied comes after a failure, a prune or a not-applied reconciliation of that very row. */
  lemma MigratedKeysAreFreed(w: World, rows: seq<LegacyRow>, n: nat, steps: seq<Step>, j: nat) returns (i: nat)
    requires IsImage(w.tables.records, rows, |rows|) && Distinct(rows, |rows|) && IsStart(w) && FreshRun(w, steps)
    requires n < |rows| && rows[n].state != Known(NotApplied)
    requires |w.hist| <= j < |RunFrom(w, steps).hist|
    requires ClaimsKey(RunFrom(w, steps).hist[j], rows[n].namespace, rows[n].key)
    ensures |w.hist| <= i < j && Frees(RunFrom(w, steps).hist[i], MigratedId(rows[n]))
  {
    StartIsOk(w);
    assert Holds(w.tables.records, rows[n]);
    i := TakenUntilFreed(w, steps, MigratedId(rows[n]), rows[n].namespace, rows[n].key, j);
  }
}
