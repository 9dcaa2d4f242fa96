/** The warehouse loader: lake rows mapped to warehouse entities and loaded in batches, one
    transaction each. Ids are fresh numbers; the `products` table is not part of this model. */
module Warehouse {
  import opened Common

  // ---------------------------------------------------------------- rows

  /** What `Decimal(str(price))` makes of the column; an empty price counts as absent. */
  datatype Price = NoPrice | Amount(value: int) | Malformed

  datatype Time = NoTime | Instant(at: int) | Unparsable

  /** A row of the lake; `""` stands for a missing field. */
  datatype LakeRow = LakeRow(
    source: string,
    externalId: string,
    availability: string,
    collectedAt: Time,
    eventId: string,
    name: Option<string>,
    price: Price,
    currency: Option<string>,
    url: Option<string>)

  datatype Payload = Payload(
    name: Option<string>, price: Option<int>, currency: Option<string>, availability: string, collectedAt: int)

  datatype Mapped = Mapped(source: string, externalId: string, url: Option<string>, eventId: string, payload: Payload)

  datatype LoadError =
    | MissingField(field: string)
    | InvalidPrice
    | InvalidTimestamp
    | Conflict(eventId: string)
    | DatabaseFailure
    | BadBatchSize

  function MapRow(r: LakeRow): Result<Mapped, LoadError> {
    if r.source == "" then Err(MissingField("source"))
    else if r.externalId == "" then Err(MissingField("external_id"))
    else if r.availability == "" then Err(MissingField("availability"))
    else if r.collectedAt == NoTime then Err(MissingField("collected_at"))
    else if r.eventId == "" then Err(MissingField("event_id"))
    else if r.price == Malformed then Err(InvalidPrice)
    else if r.collectedAt == Unparsable then Err(InvalidTimestamp)
    else
      var price := if r.price.Amount? then Some(r.price.value) else None;
      Ok(Mapped(r.source, r.externalId, r.url, r.eventId,
                Payload(r.name, price, r.currency, r.availability, r.collectedAt.at)))
  }

  /** The first row that cannot be mapped raises. */
  function MapRows(rows: seq<LakeRow>): Result<seq<Mapped>, LoadError> {
    if rows == [] then Ok([])
    else
      match MapRows(rows[..|rows| - 1])
      case Err(e) => Err(e)
      case Ok(ms) =>
        match MapRow(rows[|rows| - 1])
        case Err(e) => Err(e)
        case Ok(m) => Ok(ms + [m])
  }

  // ---------------------------------------------------------------- tables

  datatype SourceProduct = SourceProduct(id: nat, url: Option<string>)

  datatype Observation = Observation(sourceProduct: nat, payload: Payload)

  /** `sources` by name, `source_products` by (source_id, external_id), `product_observations` by
      event_id: the unique columns that ON CONFLICT names. */
  datatype Database = Database(
    sources: map<string, nat>,
    sourceProducts: map<(nat, string), SourceProduct>,
    observations: map<string, Observation>,
    nextId: nat)

  function AddSource(db: Database, m: Mapped): Database {
    if m.source in db.sources then db
    else db.(sources := db.sources[m.source := db.nextId], nextId := db.nextId + 1)
  }

  function AddSources(db: Database, ms: seq<Mapped>): Database {
    if ms == [] then db else AddSource(AddSources(db, ms[..|ms| - 1]), ms[|ms| - 1])
  }

  function AddSourceProduct(db: Database, m: Mapped): Database {
    if m.source !in db.sources then db
    else
      var key := (db.sources[m.source], m.externalId);
      if key in db.sourceProducts then db
      else db.(sourceProducts := db.sourceProducts[key := SourceProduct(db.nextId, m.url)], nextId := db.nextId + 1)
  }

  function AddSourceProducts(db: Database, ms: seq<Mapped>): Database {
    if ms == [] then db else AddSourceProduct(AddSourceProducts(db, ms[..|ms| - 1]), ms[|ms| - 1])
  }

  /** The source_product joined to its source by name. */
  function SourceProductId(db: Database, m: Mapped): Option<nat> {
    if m.source in db.sources && (db.sources[m.source], m.externalId) in db.sourceProducts
    then Some(db.sourceProducts[(db.sources[m.source], m.externalId)].id)
    else None
  }

  predicate Conflicts(db: Database, m: Mapped) {
    SourceProductId(db, m).Some? && m.eventId in db.observations && db.observations[m.eventId].payload != m.payload
  }

  /** The first row whose event is already stored with other data. */
  function FirstConflict(db: Database, ms: seq<Mapped>): Option<string> {
    if ms == [] then None
    else
      match FirstConflict(db, ms[..|ms| - 1])
      case Some(id) => Some(id)
      case None => if Conflicts(db, ms[|ms| - 1]) then Some(ms[|ms| - 1].eventId) else None
  }

  function AddObservation(db: Database, m: Mapped): Database {
    match SourceProductId(db, m)
    case None => db
    case Some(id) =>
      if m.eventId in db.observations then db
      else db.(observations := db.observations[m.eventId := Observation(id, m.payload)])
  }

  function AddObservations(db: Database, ms: seq<Mapped>): Database {
    if ms == [] then db else AddObservation(AddObservations(db, ms[..|ms| - 1]), ms[|ms| - 1])
  }

  // ---------------------------------------------------------------- one batch

  /** `list(set(values))`: the same values in an order of its own. */
  type Arrange = seq<Mapped> -> seq<Mapped>

  ghost predicate IsArrangement(arrange: Arrange) {
    forall ms, m :: m in arrange(ms) <==> m in ms
  }

  function LoadBatch(db: Database, rows: seq<LakeRow>, arrange: Arrange): Result<Database, LoadError> {
    match MapRows(rows)
    case Err(e) => Err(e)
    case Ok(ms) =>
      var d := AddSourceProducts(AddSources(db, ms), arrange(ms));
      match FirstConflict(d, ms)
      case Some(id) => Err(Conflict(id))
      case None => Ok(AddObservations(d, ms))
  }

  /** A failure of the database itself, before the commit or in it; `took` says whether a commit
      that raised had taken effect. */
  datatype Fault = NoFault | BeforeCommit | AtCommit(took: bool)

  datatype Committed = Committed(db: Database, error: Option<LoadError>)

  function Transaction(db: Database, rows: seq<LakeRow>, arrange: Arrange, fault: Fault): Committed {
    if fault == BeforeCommit then Committed(db, Some(DatabaseFailure))
    else
      match LoadBatch(db, rows, arrange)
      case Err(e) => Committed(db, Some(e))
      case Ok(d) =>
        if fault == NoFault then Committed(d, None)
        else Committed(if fault.took then d else db, Some(DatabaseFailure))
  }

  // ---------------------------------------------------------------- a whole load

  datatype LoadResult = LoadResult(rowsLoaded: nat, rowsFailed: nat, observationsCreated: int, error: Option<LoadError>)

  datatype Loaded = Loaded(db: Database, result: LoadResult)

  function FaultAt(faults: seq<Fault>, k: nat): Fault {
    if k < |faults| then faults[k] else NoFault
  }

  /** The batches of `rows` from batch number `k` on. */
  function Batches(db: Database, rows: seq<LakeRow>, size: nat, arrange: Arrange, faults: seq<Fault>, k: nat,
                   result: LoadResult): Loaded
    requires size > 0
    decreases |rows|
  {
    if rows == [] then Loaded(db, result)
    else
      var n := if size <= |rows| then size else |rows|;
      var t := Transaction(db, rows[..n], arrange, FaultAt(faults, k));
      if t.error.Some? then Loaded(t.db, result.(rowsFailed := result.rowsFailed + n, error := t.error))
      else Batches(t.db, rows[n..], size, arrange, faults, k + 1, Advance(result, n, db, t.db))
  }

  function Advance(result: LoadResult, n: nat, before: Database, after: Database): LoadResult {
    result.(rowsLoaded := result.rowsLoaded + n,
            observationsCreated := result.observationsCreated + |after.observations| - |before.observations|)
  }

  const NOTHING := LoadResult(0, 0, 0, None)

  /** `range(0, n, step)` raises for step 0 and is empty for a negative one. */
  function Load(db: Database, rows: seq<LakeRow>, batchSize: int, arrange: Arrange, faults: seq<Fault>): Loaded {
    if batchSize == 0 then Loaded(db, NOTHING.(error := Some(BadBatchSize)))
    else if batchSize < 0 then Loaded(db, NOTHING)
    else Batches(db, rows, batchSize, arrange, faults, 0, NOTHING)
  }

  // ---------------------------------------------------------------- the class

  class Postgres {
    var tables: Database
  }

  class WarehouseLoader {
    const server: Postgres
    const batchSize: int

    constructor (server: Postgres, batchSize: int)
      ensures this.server == server && this.batchSize == batchSize
    {
      this.server, this.batchSize := server, batchSize;
    }

    method MapAll(rows: seq<LakeRow>) returns (r: Result<seq<Mapped>, LoadError>)
      ensures r == MapRows(rows)
    {
      var ms: seq<Mapped> := [];
      for i := 0 to |rows|
        invariant MapRows(rows[..i]) == Ok(ms)
      {
        assert rows[..i + 1][..i] == rows[..i];
        match MapRow(rows[i]) {
          case Err(e) =>
            MapFailsEarly(rows, i + 1, e);
            return Err(e);
          case Ok(m) => ms := ms + [m];
        }
      }
      assert rows[..|rows|] == rows;
      r := Ok(ms);
    }

    method UpsertSources(work: Database, ms: seq<Mapped>) returns (db: Database)
      ensures db == AddSources(work, ms)
    {
      db := work;
      for i := 0 to |ms|
        invariant db == AddSources(work, ms[..i])
      {
        assert ms[..i + 1][..i] == ms[..i];
        if ms[i].source !in db.sources {
          db := db.(sources := db.sources[ms[i].source := db.nextId], nextId := db.nextId + 1);
        }
      }
      assert ms[..|ms|] == ms;
    }

    method UpsertSourceProducts(work: Database, ms: seq<Mapped>) returns (db: Database)
      ensures db == AddSourceProducts(work, ms)
    {
      db := work;
      for i := 0 to |ms|
        invariant db == AddSourceProducts(work, ms[..i])
      {
        assert ms[..i + 1][..i] == ms[..i];
        if ms[i].source in db.sources {
          var key := (db.sources[ms[i].source], ms[i].externalId);
          if key !in db.sourceProducts {
            db := db.(sourceProducts := db.sourceProducts[key := SourceProduct(db.nextId, ms[i].url)],
                      nextId := db.nextId + 1);
          }
        }
      }
      assert ms[..|ms|] == ms;
    }

    method InsertObservations(work: Database, ms: seq<Mapped>) returns (r: Result<Database, LoadError>)
      ensures r == match FirstConflict(work, ms)
                   case Some(id) => Err(Conflict(id))
                   case None => Ok(AddObservations(work, ms))
    {
      for i := 0 to |ms|
        invariant FirstConflict(work, ms[..i]) == None
      {
        assert ms[..i + 1][..i] == ms[..i];
        if Conflicts(work, ms[i]) {
          ConflictIsFirst(work, ms, i + 1);
          return Err(Conflict(ms[i].eventId));
        }
      }
      var db := work;
      for i := 0 to |ms|
        invariant db == AddObservations(work, ms[..i])
      {
        assert ms[..i + 1][..i] == ms[..i];
        var sp := SourceProductId(db, ms[i]);
        if sp.Some? && ms[i].eventId !in db.observations {
          db := db.(observations := db.observations[ms[i].eventId := Observation(sp.value, ms[i].payload)]);
        }
      }
      assert ms[..|ms|] == ms;
      r := Ok(db);
    }

    /** One transaction: either all of the batch is in the tables afterwards, or nothing of it. */
    method RunBatch(rows: seq<LakeRow>, arrange: Arrange, fault: Fault) returns (error: Option<LoadError>)
      modifies server
      ensures Committed(server.tables, error) == Transaction(old(server.tables), rows, arrange, fault)
    {
      if fault == BeforeCommit {
        return Some(DatabaseFailure);
      }
      var mapped := MapAll(rows);
      if mapped.Err? {
        return Some(mapped.error);
      }
      var work := UpsertSources(server.tables, mapped.value);
      work := UpsertSourceProducts(work, arrange(mapped.value));
      var inserted := InsertObservations(work, mapped.value);
      if inserted.Err? {
        return Some(inserted.error);
      }
      if fault != AtCommit(false) {
        server.tables := inserted.value;
      }
      error := if fault == NoFault then None else Some(DatabaseFailure);
    }

    /** The batch starting at `start`: on an error the load stops there. */
    method ProcessSlice(rows: seq<LakeRow>, start: nat, k: nat, arrange: Arrange, faults: seq<Fault>, before: LoadResult)
      returns (end: nat, failed: bool, result: LoadResult)
      requires start < |rows| && batchSize > 0
      modifies server
      ensures start < end <= |rows|
      ensures Batches(old(server.tables), rows[start..], batchSize, arrange, faults, k, before)
           == if failed then Loaded(server.tables, result)
              else Batches(server.tables, rows[end..], batchSize, arrange, faults, k + 1, result)
    {
      end := if start + batchSize <= |rows| then start + batchSize else |rows|;
      NextBatch(server.tables, rows, start, end, batchSize, arrange, faults, k, before);
      var tables := server.tables;
      var error := RunBatch(rows[start..end], arrange, FaultAt(faults, k));
      failed := error.Some?;
      result := if failed then before.(rowsFailed := before.rowsFailed + (end - start), error := error)
                else Advance(before, end - start, tables, server.tables);
    }

    method ProcessDataframe(rows: seq<LakeRow>, arrange: Arrange, faults: seq<Fault>) returns (result: LoadResult)
      modifies server
      ensures Loaded(server.tables, result) == Load(old(server.tables), rows, batchSize, arrange, faults)
    {
      result := NOTHING;
      if batchSize == 0 {
        return result.(error := Some(BadBatchSize));
      }
      if batchSize < 0 {
        return;
      }
      var start, k := 0, 0;
      assert rows[0..] == rows;
      while start < |rows|
        invariant 0 <= start <= |rows| && 0 <= k
        invariant Batches(old(server.tables), rows, batchSize, arrange, faults, 0, NOTHING)
               == Batches(server.tables, rows[start..], batchSize, arrange, faults, k, result)
        decreases |rows| - start
      {
        var end, failed, next := ProcessSlice(rows, start, k, arrange, faults, result);
        start, k, result := end, k + 1, next;
        if failed {
          return;
        }
      }
    }
  }

  lemma NextBatch(db: Database, rows: seq<LakeRow>, start: nat, end: nat, size: nat, arrange: Arrange,
                  faults: seq<Fault>, k: nat, result: LoadResult)
    requires size > 0 && start < end <= |rows| && end == if start + size <= |rows| then start + size else |rows|
    ensures var t := Transaction(db, rows[start..end], arrange, FaultAt(faults, k));
            Batches(db, rows[start..], size, arrange, faults, k, result)
            == if t.error.Some?
               then Loaded(t.db, result.(rowsFailed := result.rowsFailed + (end - start), error := t.error))
               else Batches(t.db, rows[end..], size, arrange, faults, k + 1, Advance(result, end - start, db, t.db))
  {
    var rest := rows[start..];
    assert rest[..end - start] == rows[start..end];
    assert rest[end - start..] == rows[end..];
  }

  lemma {:induction false} MapFailsEarly(rows: seq<LakeRow>, i: nat, e: LoadError)
    requires i <= |rows| && MapRows(rows[..i]) == Err(e)
    ensures MapRows(rows) == Err(e)
    decreases |rows|
  {
    if i == |rows| {
      assert rows[..i] == rows;
    } else {
      var init := rows[..|rows| - 1];
      assert init[..i] == rows[..i];
      MapFailsEarly(init, i, e);
    }
  }

  lemma {:induction false} ConflictIsFirst(db: Database, ms: seq<Mapped>, i: nat)
    requires i <= |ms| && FirstConflict(db, ms[..i]).Some?
    ensures FirstConflict(db, ms) == FirstConflict(db, ms[..i])
    decreases |ms|
  {
    if i == |ms| {
      assert ms[..i] == ms;
    } else {
      var init := ms[..|ms| - 1];
      assert init[..i] == ms[..i];
      ConflictIsFirst(db, init, i);
    }
  }
}
