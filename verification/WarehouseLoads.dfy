/** Whole loads: batches, failures, reloads, and the invariant of the tables. */
module WarehouseLoads {
  import opened Common
  import opened Warehouse
  import opened WarehouseSafety

  // ---------------------------------------------------------------- the data stored for an event

  function View(db: Database, id: string): Option<Payload> {
    if id in db.observations then Some(db.observations[id].payload) else None
  }

  /** What is stored for `id` after rows `ms` met what was stored before. */
  function After(before: Option<Payload>, ms: seq<Mapped>, id: string): Option<Payload> {
    if before.Some? then before
    else
      match FirstRow(ms, id)
      case None => None
      case Some(f) => Some(f.payload)
  }

  lemma {:induction false} FirstRowConcat(a: seq<Mapped>, b: seq<Mapped>, id: string)
    ensures FirstRow(a + b, id) == if FirstRow(a, id).Some? then FirstRow(a, id) else FirstRow(b, id)
  {
    if b == [] {
      assert a + b == a;
    } else {
      assert (a + b)[..|a + b| - 1] == a + b[..|b| - 1];
      FirstRowConcat(a, b[..|b| - 1], id);
    }
  }

  lemma BatchView(db: Database, rows: seq<LakeRow>, arrange: Arrange, id: string)
    requires IsArrangement(arrange) && LoadBatch(db, rows, arrange).Ok?
    ensures WellFormed(rows)
    ensures View(LoadBatch(db, rows, arrange).value, id) == After(View(db, id), Mapping(rows), id)
  {
    CommittedBatch(db, rows, arrange, id);
    FirstRowIs(Mapping(rows), id);
  }

  // ---------------------------------------------------------------- what a failed load leaves

  /** The batches of `rows` with no failure of the database. */
  function Clean(db: Database, rows: seq<LakeRow>, size: nat, arrange: Arrange): Loaded
    requires size > 0
  {
    Batches(db, rows, size, arrange, [], 0, NOTHING)
  }

  /** The tables do not depend on the counters or on the number of the first batch. */
  lemma {:induction false} CleanFrom(db: Database, rows: seq<LakeRow>, size: nat, arrange: Arrange, k: nat, result: LoadResult)
    requires size > 0
    ensures Batches(db, rows, size, arrange, [], k, result).db == Clean(db, rows, size, arrange).db
    ensures result.error == None ==>
              Batches(db, rows, size, arrange, [], k, result).result.error == Clean(db, rows, size, arrange).result.error
    decreases |rows|
  {
    if rows != [] {
      var n := if size <= |rows| then size else |rows|;
      var t := Transaction(db, rows[..n], arrange, NoFault);
      if t.error == None {
        CleanFrom(t.db, rows[n..], size, arrange, k + 1, Advance(result, n, db, t.db));
        CleanFrom(t.db, rows[n..], size, arrange, 1, Advance(NOTHING, n, db, t.db));
      }
    }
  }

  lemma CleanBatch(db: Database, rows: seq<LakeRow>, size: nat, arrange: Arrange, c: nat, n: nat)
    requires size > 0 && n <= c <= |rows| && rows != [] && n == if size <= |rows| then size else |rows|
    requires Transaction(db, rows[..n], arrange, NoFault).error == None
    ensures var t := Transaction(db, rows[..n], arrange, NoFault);
            Clean(db, rows[..c], size, arrange).db == Clean(t.db, rows[n..][..c - n], size, arrange).db
            && Clean(db, rows[..c], size, arrange).result.error == Clean(t.db, rows[n..][..c - n], size, arrange).result.error
  {
    var t := Transaction(db, rows[..n], arrange, NoFault);
    var part := rows[..c];
    assert part[..n] == rows[..n] && part[n..] == rows[n..][..c - n];
    CleanFrom(t.db, part[n..], size, arrange, 1, Advance(NOTHING, n, db, t.db));
  }

  /** The first `c` of `total` rows are in the tables, as if they alone had been loaded: those of the
      batches that succeeded, and those of a batch whose commit took effect although it raised. */
  ghost predicate Prefix(c: nat, total: nat, alone: Loaded, out: Loaded, before: LoadResult) {
    (before.rowsLoaded + c == out.result.rowsLoaded
     || (out.result.error == Some(DatabaseFailure)
         && before.rowsLoaded + before.rowsFailed + c == out.result.rowsLoaded + out.result.rowsFailed))
    && out.db == alone.db && alone.result.error == None && (out.result.error == None ==> c == total)
  }

  /** So many rows are whole batches. */
  predicate Whole(c: nat, size: nat)
    requires size > 0
  {
    c == 0 || (c >= size && Whole(c - size, size))
  }

  predicate Boundary(c: nat, total: nat, size: nat)
    requires size > 0
  {
    c == total || Whole(c, size)
  }

  lemma {:induction false} WholeIsMultiple(c: nat, size: nat)
    requires size > 0 && Whole(c, size)
    ensures c % size == 0
  {
    if c > 0 {
      WholeIsMultiple(c - size, size);
      assert c == size * ((c - size) / size + 1);
      Multiple(size, (c - size) / size + 1 - c / size);
    }
  }

  lemma Multiple(size: nat, d: int)
    requires 0 <= size * d < size
    ensures size * d == 0
  {
    if d >= 1 {
      assert size * d == size + size * (d - 1);
    }
  }

  lemma PrefixGrows(n: nat, c: nat, total: nat, rest: Loaded, alone: Loaded, out: Loaded, before: LoadResult,
                    next: LoadResult)
    requires Prefix(c, total, rest, out, next)
    requires next.rowsLoaded == before.rowsLoaded + n && next.rowsFailed == before.rowsFailed
    requires alone.db == rest.db && alone.result.error == rest.result.error
    ensures Prefix(n + c, n + total, alone, out, before)
  {
  }

  lemma PrefixStops(db: Database, rows: seq<LakeRow>, size: nat, arrange: Arrange, n: nat, fault: Fault, before: LoadResult)
      returns (c: nat)
    requires size > 0 && rows != [] && n == if size <= |rows| then size else |rows|
    requires Transaction(db, rows[..n], arrange, fault).error.Some?
    ensures c <= |rows| && Boundary(c, |rows|, size)
    ensures var t := Transaction(db, rows[..n], arrange, fault);
            Prefix(c, |rows|, Clean(db, rows[..c], size, arrange),
                   Loaded(t.db, before.(rowsFailed := before.rowsFailed + n, error := t.error)), before)
  {
    c := 0;
    assert rows[..0] == [];
    if fault == AtCommit(true) && LoadBatch(db, rows[..n], arrange).Ok? {
      c := n;
      assert rows[n..][..0] == [];
      CleanBatch(db, rows, size, arrange, n, n);
    }
  }

  lemma {:induction false} LeavesPrefix(db: Database, rows: seq<LakeRow>, size: nat, arrange: Arrange,
                                        faults: seq<Fault>, k: nat, before: LoadResult) returns (c: nat)
    requires size > 0 && before.error == None
    ensures c <= |rows| && Boundary(c, |rows|, size)
    ensures Prefix(c, |rows|, Clean(db, rows[..c], size, arrange), Batches(db, rows, size, arrange, faults, k, before), before)
    decreases |rows|, 1
  {
    if rows == [] {
      c := 0;
    } else {
      var n := if size <= |rows| then size else |rows|;
      NextBatch(db, rows, 0, n, size, arrange, faults, k, before);
      assert rows[0..] == rows && rows[0..n] == rows[..n];
      if Transaction(db, rows[..n], arrange, FaultAt(faults, k)).error == None {
        c := PrefixContinues(db, rows, size, arrange, faults, k, before, n);
      } else {
        c := PrefixStops(db, rows, size, arrange, n, FaultAt(faults, k), before);
      }
    }
  }

  lemma {:induction false} PrefixContinues(db: Database, rows: seq<LakeRow>, size: nat, arrange: Arrange, faults: seq<Fault>,
                                           k: nat, before: LoadResult, n: nat) returns (c: nat)
    requires size > 0 && before.error == None && rows != [] && n == if size <= |rows| then size else |rows|
    requires Transaction(db, rows[..n], arrange, FaultAt(faults, k)).error == None
    ensures c <= |rows| && Boundary(c, |rows|, size)
    ensures var t := Transaction(db, rows[..n], arrange, FaultAt(faults, k));
            Prefix(c, |rows|, Clean(db, rows[..c], size, arrange),
                   Batches(t.db, rows[n..], size, arrange, faults, k + 1, Advance(before, n, db, t.db)), before)
    decreases |rows|, 0
  {
    var t := Transaction(db, rows[..n], arrange, FaultAt(faults, k));
    assert t == Transaction(db, rows[..n], arrange, NoFault);
    var next := Advance(before, n, db, t.db);
    var c' := LeavesPrefix(t.db, rows[n..], size, arrange, faults, k + 1, next);
    c := n + c';
    CleanBatch(db, rows, size, arrange, c, n);
    PrefixGrows(n, c', |rows[n..]|, Clean(t.db, rows[n..][..c'], size, arrange), Clean(db, rows[..c], size, arrange),
                Batches(t.db, rows[n..], size, arrange, faults, k + 1, next), before, next);
  }

  /** Wherever a load stops, the tables are exactly what loading the rows of the committed batches
      alone gives: no half of a batch. */
  lemma FailureLeavesPrefix(db: Database, rows: seq<LakeRow>, size: nat, arrange: Arrange, faults: seq<Fault>, k: nat,
                            before: LoadResult) returns (c: nat)
    requires size > 0 && before.error == None
    ensures c <= |rows| && (c == |rows| || c % size == 0)
    ensures Prefix(c, |rows|, Clean(db, rows[..c], size, arrange), Batches(db, rows, size, arrange, faults, k, before), before)
  {
    c := LeavesPrefix(db, rows, size, arrange, faults, k, before);
    if c < |rows| {
      WholeIsMultiple(c, size);
    }
  }

  // ---------------------------------------------------------------- stored data is never changed

  lemma {:induction false} StoredForever(db: Database, rows: seq<LakeRow>, size: nat, arrange: Arrange, faults: seq<Fault>,
                                         k: nat, result: LoadResult, id: string)
    requires size > 0 && IsArrangement(arrange) && id in db.observations
    ensures Lookup(Batches(db, rows, size, arrange, faults, k, result).db.observations, id) == Some(db.observations[id])
    decreases |rows|
  {
    if rows != [] {
      var n := if size <= |rows| then size else |rows|;
      var t := Transaction(db, rows[..n], arrange, FaultAt(faults, k));
      if LoadBatch(db, rows[..n], arrange).Ok? {
        CommittedBatch(db, rows[..n], arrange, id);
      }
      if t.error == None {
        StoredForever(t.db, rows[n..], size, arrange, faults, k + 1, Advance(result, n, db, t.db), id);
      }
    }
  }

  // ---------------------------------------------------------------- conflict-free rows

  /** Rows that map, agree among themselves, and agree with what is stored. */
  ghost predicate ConflictFree(db: Database, rows: seq<LakeRow>) {
    WellFormed(rows) && Consistent(Mapping(rows)) && forall m :: m in Mapping(rows) ==> !Disagrees(db, m)
  }

  lemma MappingSplit(rows: seq<LakeRow>, n: nat)
    requires n <= |rows| && WellFormed(rows)
    ensures WellFormed(rows[..n]) && WellFormed(rows[n..])
    ensures Mapping(rows) == Mapping(rows[..n]) + Mapping(rows[n..])
  {
  }

  lemma ConflictFreeSplit(db: Database, rows: seq<LakeRow>, n: nat, arrange: Arrange)
    requires n <= |rows| && ConflictFree(db, rows) && IsArrangement(arrange)
    ensures ConflictFree(db, rows[..n]) && LoadBatch(db, rows[..n], arrange).Ok?
    ensures ConflictFree(LoadBatch(db, rows[..n], arrange).value, rows[n..])
  {
    MappingSplit(rows, n);
    var a, b := Mapping(rows[..n]), Mapping(rows[n..]);
    assert forall m :: m in a || m in b <==> m in Mapping(rows);
    RaisesExactly(db, rows[..n], arrange);
    var d := LoadBatch(db, rows[..n], arrange).value;
    forall m | m in b ensures !Disagrees(d, m) {
      BatchView(db, rows[..n], arrange, m.eventId);
      FirstRowIs(a, m.eventId);
      assert !Disagrees(db, m);
    }
  }

  /** Conflict-free rows load without an error, whatever the batch size, and every event ends with
      the data of its rows. */
  lemma {:induction false} ConflictFreeLoads(db: Database, rows: seq<LakeRow>, size: nat, arrange: Arrange,
                                             k: nat, result: LoadResult, id: string)
    requires size > 0 && IsArrangement(arrange) && ConflictFree(db, rows) && result.error == None
    ensures var out := Batches(db, rows, size, arrange, [], k, result);
            out.result.error == None && out.result.rowsLoaded == result.rowsLoaded + |rows|
            && View(out.db, id) == After(View(db, id), Mapping(rows), id)
    decreases |rows|
  {
    if rows == [] {
      assert Mapping(rows) == [];
    } else {
      var n := if size <= |rows| then size else |rows|;
      ConflictFreeSplit(db, rows, n, arrange);
      MappingSplit(rows, n);
      var d := LoadBatch(db, rows[..n], arrange).value;
      BatchView(db, rows[..n], arrange, id);
      ConflictFreeLoads(d, rows[n..], size, arrange, k + 1, Advance(result, n, db, d), id);
      FirstRowConcat(Mapping(rows[..n]), Mapping(rows[n..]), id);
    }
  }

  /** With batches of one row every disagreement is reported. */
  lemma {:induction false} SingleRowsReport(db: Database, rows: seq<LakeRow>, arrange: Arrange, k: nat, result: LoadResult)
    requires IsArrangement(arrange) && result.error == None
    requires Batches(db, rows, 1, arrange, [], k, result).result.error == None
    ensures ConflictFree(db, rows)
    decreases |rows|
  {
    if rows != [] {
      var r, rest := rows[0], rows[1..];
      assert rows[..1] == [r] && rows == [r] + rest;
      RaisesExactly(db, [r], arrange);
      var d := LoadBatch(db, [r], arrange).value;
      SingleRowsReport(d, rest, arrange, k + 1, Advance(result, 1, db, d));
      FirstAndRest(db, r, rest, arrange);
    }
  }

  lemma FirstAndRest(db: Database, r: LakeRow, rest: seq<LakeRow>, arrange: Arrange)
    requires IsArrangement(arrange) && LoadBatch(db, [r], arrange).Ok?
    requires ConflictFree(LoadBatch(db, [r], arrange).value, rest)
    ensures ConflictFree(db, [r] + rest)
  {
    RaisesExactly(db, [r], arrange);
    var d, rows := LoadBatch(db, [r], arrange).value, [r] + rest;
    assert r in [r] && forall x :: x in rows ==> x == r || x in rest;
    var a := MapRow(r).value;
    assert Mapping([r]) == [a] && Mapping(rows) == [a] + Mapping(rest);
    forall m | m in Mapping(rest)
      ensures !Disagrees(db, m) && (m.eventId == a.eventId ==> m.payload == a.payload)
    {
      BatchView(db, [r], arrange, m.eventId);
      FirstRowIs([a], m.eventId);
      assert !Disagrees(d, m) && a in [a] && !Disagrees(db, a);
    }
  }

  /** The condition is exact: rows load without an error for every positive batch size exactly when
      they are free of conflicts. */
  lemma LoadsForEverySizeIff(db: Database, rows: seq<LakeRow>, arrange: Arrange)
    requires IsArrangement(arrange)
    ensures (forall size: int :: size > 0 ==> Load(db, rows, size, arrange, []).result.error == None)
            <==> ConflictFree(db, rows)
  {
    if ConflictFree(db, rows) {
      forall size: int | size > 0 ensures Load(db, rows, size, arrange, []).result.error == None {
        ConflictFreeLoads(db, rows, size, arrange, 0, NOTHING, "");
      }
    } else if Load(db, rows, 1, arrange, []).result.error == None {
      SingleRowsReport(db, rows, arrange, 0, NOTHING);
    }
  }

  /** Every field of a conflict-free row can be read back from the observation of its event. */
  lemma RowReadBack(db: Database, rows: seq<LakeRow>, size: nat, arrange: Arrange, r: LakeRow)
    requires size > 0 && IsArrangement(arrange) && ConflictFree(db, rows) && r in rows
    ensures var stored := View(Load(db, rows, size, arrange, []).db, r.eventId);
            stored.Some?
            && stored.value.availability == r.availability && Instant(stored.value.collectedAt) == r.collectedAt
            && stored.value.name == r.name && stored.value.currency == r.currency
            && r.price == (match stored.value.price case Some(v) => Amount(v) case None => NoPrice)
  {
    MapsIff(r);
    var m := MapRow(r).value;
    InMapping(rows);
    assert m in Mapping(rows) && !Disagrees(db, m);
    ConflictFreeLoads(db, rows, size, arrange, 0, NOTHING, m.eventId);
    FirstRowIs(Mapping(rows), m.eventId);
  }

  ghost predicate SameRows(a: seq<LakeRow>, b: seq<LakeRow>) {
    forall r :: r in a <==> r in b
  }

  lemma SameMapping(a: seq<LakeRow>, b: seq<LakeRow>)
    requires WellFormed(a) && SameRows(a, b)
    ensures WellFormed(b) && forall m :: m in Mapping(a) <==> m in Mapping(b)
  {
    InMapping(a);
    InMapping(b);
  }

  lemma InMapping(rows: seq<LakeRow>)
    requires WellFormed(rows)
    ensures forall m :: m in Mapping(rows) <==> exists r :: r in rows && MapRow(r) == Ok(m)
  {
    forall m | m in Mapping(rows) ensures exists r :: r in rows && MapRow(r) == Ok(m) {
      var i :| 0 <= i < |rows| && Mapping(rows)[i] == m;
      assert rows[i] in rows && MapRow(rows[i]) == Ok(m);
    }
    forall r | r in rows ensures MapRow(r).value in Mapping(rows) {
      var i :| 0 <= i < |rows| && rows[i] == r;
      assert Mapping(rows)[i] == MapRow(r).value;
    }
  }

  /** For consistent rows, what is stored depends only on their set. */
  lemma AfterSame(before: Option<Payload>, a: seq<Mapped>, b: seq<Mapped>, id: string)
    requires Consistent(a) && forall m :: m in a <==> m in b
    ensures After(before, a, id) == After(before, b, id)
  {
    FirstRowIs(a, id);
    FirstRowIs(b, id);
  }

  /** The same rows in another order, with other repetitions and another batch size, give the same
      data for every event. */
  lemma OrderAndBatchesIrrelevant(db: Database, a: seq<LakeRow>, b: seq<LakeRow>, sizeA: nat, sizeB: nat,
                                  arrangeA: Arrange, arrangeB: Arrange, id: string)
    requires sizeA > 0 && sizeB > 0 && IsArrangement(arrangeA) && IsArrangement(arrangeB)
    requires ConflictFree(db, a) && SameRows(a, b)
    ensures var la, lb := Load(db, a, sizeA, arrangeA, []), Load(db, b, sizeB, arrangeB, []);
            la.result.error == lb.result.error == None && View(la.db, id) == View(lb.db, id)
  {
    SameMapping(a, b);
    ConflictFreeLoads(db, a, sizeA, arrangeA, 0, NOTHING, id);
    ConflictFreeLoads(db, b, sizeB, arrangeB, 0, NOTHING, id);
    AfterSame(View(db, id), Mapping(a), Mapping(b), id);
  }

  lemma PrefixAgain(before: Option<Payload>, ms: seq<Mapped>, c: nat, id: string)
    requires c <= |ms|
    ensures After(After(before, ms[..c], id), ms, id) == After(before, ms, id)
  {
    assert ms == ms[..c] + ms[c..];
    FirstRowConcat(ms[..c], ms[c..], id);
  }

  /** After a load that failed anywhere, loading everything again ends with the same data as a load
      that never failed. */
  lemma ReloadConverges(db: Database, rows: seq<LakeRow>, size: nat, arrange: Arrange, faults: seq<Fault>, id: string)
    requires size > 0 && IsArrangement(arrange) && ConflictFree(db, rows)
    ensures var failed := Load(db, rows, size, arrange, faults).db;
            var again := Load(failed, rows, size, arrange, []);
            again.result.error == None && View(again.db, id) == View(Load(db, rows, size, arrange, []).db, id)
  {
    var failed := Batches(db, rows, size, arrange, faults, 0, NOTHING).db;
    var c := FailureLeavesPrefix(db, rows, size, arrange, faults, 0, NOTHING);
    MappingSplit(rows, c);
    assert Mapping(rows)[..c] == Mapping(rows[..c]);
    ConflictFreeSplit(db, rows, c, arrange);
    forall e ensures View(failed, e) == After(View(db, e), Mapping(rows)[..c], e) {
      ConflictFreeLoads(db, rows[..c], size, arrange, 0, NOTHING, e);
    }
    StillConflictFree(db, failed, rows, c);
    ConflictFreeLoads(failed, rows, size, arrange, 0, NOTHING, id);
    ConflictFreeLoads(db, rows, size, arrange, 0, NOTHING, id);
    PrefixAgain(View(db, id), Mapping(rows), c, id);
  }

  lemma StillConflictFree(db: Database, d: Database, rows: seq<LakeRow>, c: nat)
    requires ConflictFree(db, rows) && c <= |rows|
    requires forall e :: View(d, e) == After(View(db, e), Mapping(rows)[..c], e)
    ensures ConflictFree(d, rows)
  {
    var ms := Mapping(rows);
    forall m | m in ms ensures !Disagrees(d, m) {
      FirstRowIs(ms[..c], m.eventId);
      assert View(d, m.eventId) == After(View(db, m.eventId), ms[..c], m.eventId);
      assert !Disagrees(db, m);
    }
  }

  // ---------------------------------------------------------------- what success means

  lemma {:induction false} AllLoaded(db: Database, rows: seq<LakeRow>, size: nat, arrange: Arrange, faults: seq<Fault>,
                                     k: nat, before: LoadResult)
    requires size > 0 && before.error == None
    ensures var out := Batches(db, rows, size, arrange, faults, k, before);
            out.result.error == None ==>
              out.result.rowsLoaded == before.rowsLoaded + |rows| && out.result.rowsFailed == before.rowsFailed
              && out.result.observationsCreated - before.observationsCreated
                 == |out.db.observations| - |db.observations|
    decreases |rows|
  {
    if rows != [] {
      var n := if size <= |rows| then size else |rows|;
      var t := Transaction(db, rows[..n], arrange, FaultAt(faults, k));
      if t.error == None {
        AllLoaded(t.db, rows[n..], size, arrange, faults, k + 1, Advance(before, n, db, t.db));
      }
    }
  }

  /** A load without an error has loaded every row exactly when its batch size is positive: a
      negative one loads nothing and still reports success. */
  lemma SuccessLoadsAllIff(db: Database, rows: seq<LakeRow>, batchSize: int, arrange: Arrange, faults: seq<Fault>)
    requires Load(db, rows, batchSize, arrange, faults).result.error == None && rows != []
    ensures Load(db, rows, batchSize, arrange, faults).result.rowsLoaded == |rows| <==> batchSize > 0
  {
    if batchSize > 0 {
      AllLoaded(db, rows, batchSize, arrange, faults, 0, NOTHING);
    }
  }

  // ---------------------------------------------------------------- keys and links

  /** Ids are unique, and every reference has its target. */
  ghost predicate ValidTables(db: Database) {
    (forall a, b :: a in db.sources && b in db.sources && db.sources[a] == db.sources[b] ==> a == b)
    && (forall a :: a in db.sources ==> db.sources[a] < db.nextId)
    && (forall k :: k in db.sourceProducts ==> db.sourceProducts[k].id < db.nextId && k.0 in db.sources.Values)
    && (forall k, l :: k in db.sourceProducts && l in db.sourceProducts ==>
          (db.sourceProducts[k].id == db.sourceProducts[l].id ==> k == l))
    && (forall e :: e in db.observations ==> Linked(db, db.observations[e].sourceProduct))
  }

  ghost predicate Linked(db: Database, id: nat) {
    exists k :: k in db.sourceProducts && db.sourceProducts[k].id == id
  }

  lemma AddSourceValid(db: Database, m: Mapped)
    requires ValidTables(db)
    ensures ValidTables(AddSource(db, m))
  {
    var d := AddSource(db, m);
    if m.source !in db.sources {
      forall k | k in d.sourceProducts ensures k.0 in d.sources.Values {
        var a :| a in db.sources && db.sources[a] == k.0;
        assert a in d.sources && d.sources[a] == k.0;
      }
      forall e | e in d.observations ensures Linked(d, d.observations[e].sourceProduct) {
        assert Linked(db, db.observations[e].sourceProduct);
      }
    }
  }

  lemma AddSourceProductValid(db: Database, m: Mapped)
    requires ValidTables(db)
    ensures ValidTables(AddSourceProduct(db, m))
  {
    var d := AddSourceProduct(db, m);
    if d != db {
      assert m.source in d.sources && d.sources[m.source] in d.sources.Values;
      forall e | e in d.observations ensures Linked(d, d.observations[e].sourceProduct) {
        var k :| k in db.sourceProducts && db.sourceProducts[k].id == db.observations[e].sourceProduct;
        assert k in d.sourceProducts && d.sourceProducts[k] == db.sourceProducts[k];
      }
    }
  }

  lemma AddObservationValid(db: Database, m: Mapped)
    requires ValidTables(db)
    ensures ValidTables(AddObservation(db, m))
  {
    var d := AddObservation(db, m);
    forall e | e in d.observations ensures Linked(d, d.observations[e].sourceProduct) {
      if e in db.observations {
        assert Linked(db, db.observations[e].sourceProduct);
      } else {
        assert (db.sources[m.source], m.externalId) in d.sourceProducts;
      }
    }
  }

  lemma {:induction false} AddAllValid(db: Database, ms: seq<Mapped>)
    requires ValidTables(db)
    ensures ValidTables(AddSources(db, ms)) && ValidTables(AddSourceProducts(db, ms)) && ValidTables(AddObservations(db, ms))
  {
    if ms != [] {
      var init, m := ms[..|ms| - 1], ms[|ms| - 1];
      AddAllValid(db, init);
      AddSourceValid(AddSources(db, init), m);
      AddSourceProductValid(AddSourceProducts(db, init), m);
      AddObservationValid(AddObservations(db, init), m);
    }
  }

  /** Every load keeps the tables valid, whatever fails. */
  lemma {:induction false} LoadKeepsTables(db: Database, rows: seq<LakeRow>, size: nat, arrange: Arrange, faults: seq<Fault>,
                                           k: nat, result: LoadResult)
    requires size > 0 && ValidTables(db)
    ensures ValidTables(Batches(db, rows, size, arrange, faults, k, result).db)
    decreases |rows|
  {
    if rows != [] {
      var n := if size <= |rows| then size else |rows|;
      var t := Transaction(db, rows[..n], arrange, FaultAt(faults, k));
      BatchKeepsTables(db, rows[..n], arrange);
      if t.error == None {
        LoadKeepsTables(t.db, rows[n..], size, arrange, faults, k + 1, Advance(result, n, db, t.db));
      }
    }
  }

  lemma BatchKeepsTables(db: Database, rows: seq<LakeRow>, arrange: Arrange)
    requires ValidTables(db)
    ensures LoadBatch(db, rows, arrange).Ok? ==> ValidTables(LoadBatch(db, rows, arrange).value)
  {
    if MapRows(rows).Ok? {
      var ms := MapRows(rows).value;
      AddAllValid(db, ms);
      AddAllValid(AddSources(db, ms), arrange(ms));
      AddAllValid(Upserted(db, ms, arrange), ms);
    }
  }

  /** In valid tables the link of a newly inserted observation leads back to the source name and
      external id of its row, and to nothing else. */
  lemma LinkLeadsBack(db: Database, m: Mapped, name: string, externalId: string)
    requires ValidTables(db) && SourceProductId(db, m).Some? && name in db.sources
    requires (db.sources[name], externalId) in db.sourceProducts
    ensures db.sourceProducts[(db.sources[name], externalId)].id == SourceProductId(db, m).value
            <==> name == m.source && externalId == m.externalId
  {
  }

  // ---------------------------------------------------------------- the counters

  /** What the result of a load says of its rows: those of the batches that went through are loaded, and
      those of the batch at which it stopped have failed. */
  lemma {:induction false} RowsTell(db: Database, rows: seq<LakeRow>, size: nat, arrange: Arrange, faults: seq<Fault>, k: nat,
                                    result: LoadResult)
    requires size > 0 && result.error == None
    ensures var out := Batches(db, rows, size, arrange, faults, k, result).result;
            var loaded := out.rowsLoaded - result.rowsLoaded;
            && 0 <= loaded <= |rows|
            && (out.error == None ==> loaded == |rows| && out.rowsFailed == result.rowsFailed)
            && (out.error.Some? ==>
                  loaded < |rows|
                  && out.rowsFailed - result.rowsFailed == if size <= |rows| - loaded then size else |rows| - loaded)
    decreases |rows|
  {
    if rows != [] {
      var n := if size <= |rows| then size else |rows|;
      var t := Transaction(db, rows[..n], arrange, FaultAt(faults, k));
      if t.error == None {
        RowsTell(t.db, rows[n..], size, arrange, faults, k + 1, Advance(result, n, db, t.db));
      }
    }
  }

  lemma FailureKeepsTables(db: Database, rows: seq<LakeRow>, arrange: Arrange, fault: Fault)
    requires fault != AtCommit(true) && Transaction(db, rows, arrange, fault).error.Some?
    ensures Transaction(db, rows, arrange, fault).db == db
  {
  }

  /** And what it says of its tables, when no commit raised after it took effect. */
  lemma {:induction false} CreatedTells(db: Database, rows: seq<LakeRow>, size: nat, arrange: Arrange, faults: seq<Fault>,
                                        k: nat, result: LoadResult)
    requires size > 0 && result.error == None && forall i :: 0 <= i < |faults| ==> faults[i] != AtCommit(true)
    ensures var out := Batches(db, rows, size, arrange, faults, k, result);
            out.result.observationsCreated - result.observationsCreated == |out.db.observations| - |db.observations|
    decreases |rows|
  {
    if rows != [] {
      var n := if size <= |rows| then size else |rows|;
      var t := Transaction(db, rows[..n], arrange, FaultAt(faults, k));
      assert FaultAt(faults, k) != AtCommit(true);
      if t.error == None {
        CreatedTells(t.db, rows[n..], size, arrange, faults, k + 1, Advance(result, n, db, t.db));
      } else {
        FailureKeepsTables(db, rows[..n], arrange, FaultAt(faults, k));
      }
    }
  }

  /** No batch size below one loads anything: zero raises at once, a negative one reports success. */
  lemma BadSizesLoadNothing(db: Database, rows: seq<LakeRow>, size: int, arrange: Arrange, faults: seq<Fault>)
    requires size <= 0
    ensures var out := Load(db, rows, size, arrange, faults);
            && out.db == db && out.result.rowsLoaded == out.result.rowsFailed == out.result.observationsCreated == 0
            && out.result.error == if size == 0 then Some(BadBatchSize) else None
  {
  }

  /** A commit that took effect leaves what it would have left, whether or not it raised; any other
      failure leaves the tables alone; and every failure is reported. */
  lemma FaultsOfTransaction(db: Database, rows: seq<LakeRow>, arrange: Arrange, fault: Fault)
    ensures var t, good := Transaction(db, rows, arrange, fault), Transaction(db, rows, arrange, NoFault);
            && (fault != NoFault ==> t.db == if fault == AtCommit(true) then good.db else db)
            && (good.error.Some? ==> good.db == db)
            && (fault != NoFault ==> t.error.Some?)
            && (good.error == None && fault != NoFault ==> t.error == Some(DatabaseFailure))
            && (good.error.Some? && fault != BeforeCommit ==> t.error == good.error)
  {
  }
}
