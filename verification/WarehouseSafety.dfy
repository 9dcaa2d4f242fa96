/** What a load guarantees: nothing skipped, nothing overwritten, and a result that depends only on
    the set of rows. */
module WarehouseSafety {
  import opened Common
  import opened Warehouse

  // ---------------------------------------------------------------- one row

  /** A row maps exactly when no required field is missing and price and time can be read; what it
      maps to carries every field on, with an absent price as null. */
  lemma MapsIff(r: LakeRow)
    ensures MapRow(r).Ok? <==> r.source != "" && r.externalId != "" && r.availability != "" && r.eventId != ""
                               && r.collectedAt.Instant? && !r.price.Malformed?
    ensures MapRow(r).Ok? ==>
              var m := MapRow(r).value;
              m.source == r.source && m.externalId == r.externalId && m.url == r.url && m.eventId == r.eventId
              && m.payload.availability == r.availability && Instant(m.payload.collectedAt) == r.collectedAt
              && m.payload.name == r.name && m.payload.currency == r.currency
              && r.price == (match m.payload.price case Some(v) => Amount(v) case None => NoPrice)
  {
  }

  /** The fields in the order in which their absence is noticed. */
  function FieldMissing(r: LakeRow, i: nat): Option<string> {
    if i == 0 && r.source == "" then Some("source")
    else if i == 1 && r.externalId == "" then Some("external_id")
    else if i == 2 && r.availability == "" then Some("availability")
    else if i == 3 && r.collectedAt.NoTime? then Some("collected_at")
    else if i == 4 && r.eventId == "" then Some("event_id")
    else None
  }

  /** Why a row does not map: the first missing field, else the price, else the time. */
  lemma MapErrors(r: LakeRow)
    ensures forall i: nat, f :: FieldMissing(r, i) == Some(f) && (forall j: nat :: j < i ==> FieldMissing(r, j) == None) ==>
              MapRow(r) == Err(MissingField(f))
    ensures (forall i: nat :: i < 5 ==> FieldMissing(r, i) == None) && r.price.Malformed? ==> MapRow(r) == Err(InvalidPrice)
    ensures (forall i: nat :: i < 5 ==> FieldMissing(r, i) == None) && !r.price.Malformed? && r.collectedAt.Unparsable? ==>
              MapRow(r) == Err(InvalidTimestamp)
  {
    assert FieldMissing(r, 0).Some? <==> r.source == "";
    assert FieldMissing(r, 1).Some? <==> r.externalId == "";
    assert FieldMissing(r, 2).Some? <==> r.availability == "";
    assert FieldMissing(r, 3).Some? <==> r.collectedAt.NoTime?;
    assert FieldMissing(r, 4).Some? <==> r.eventId == "";
  }

  /** A batch that cannot be mapped reports the first row that cannot. */
  lemma {:induction false} FirstBadRow(rows: seq<LakeRow>, i: nat)
    requires i < |rows| && MapRow(rows[i]).Err? && forall j :: 0 <= j < i ==> MapRow(rows[j]).Ok?
    ensures MapRows(rows) == Err(MapRow(rows[i]).error)
  {
    var init := rows[..|rows| - 1];
    if i < |init| {
      FirstBadRow(init, i);
    } else {
      MapsIffWellFormed(init);
    }
  }

  // ---------------------------------------------------------------- one committed batch

  lemma {:induction false} SourcesAdded(db: Database, ms: seq<Mapped>)
    ensures var d := AddSources(db, ms);
            d.sourceProducts == db.sourceProducts && d.observations == db.observations
            && (forall m :: m in ms ==> m.source in d.sources)
  {
    if ms != [] {
      SourcesAdded(db, ms[..|ms| - 1]);
      assert ms == ms[..|ms| - 1] + [ms[|ms| - 1]];
    }
  }

  lemma {:induction false} SourceProductsAdded(db: Database, ms: seq<Mapped>)
    requires forall m :: m in ms ==> m.source in db.sources
    ensures var d := AddSourceProducts(db, ms);
            d.sources == db.sources && d.observations == db.observations
            && forall m :: m in ms ==> SourceProductId(d, m).Some?
  {
    if ms != [] {
      SourceProductsAdded(db, ms[..|ms| - 1]);
      assert ms == ms[..|ms| - 1] + [ms[|ms| - 1]];
    }
  }

  /** The tables a batch checks its observations against. */
  function Upserted(db: Database, ms: seq<Mapped>, arrange: Arrange): Database {
    AddSourceProducts(AddSources(db, ms), arrange(ms))
  }

  /** Every "id not found, continue" branch is unreachable. */
  lemma NoRowSkipped(db: Database, ms: seq<Mapped>, arrange: Arrange)
    requires IsArrangement(arrange)
    ensures var d := Upserted(db, ms, arrange);
            d.observations == db.observations && forall m :: m in ms ==> SourceProductId(d, m).Some?
  {
    SourcesAdded(db, ms);
    SourceProductsAdded(AddSources(db, ms), arrange(ms));
    forall m | m in ms ensures SourceProductId(Upserted(db, ms, arrange), m).Some? {
      assert m in arrange(ms);
    }
  }

  /** The first row of a batch with an event id. */
  function FirstRow(ms: seq<Mapped>, id: string): Option<Mapped> {
    if ms == [] then None
    else
      match FirstRow(ms[..|ms| - 1], id)
      case Some(m) => Some(m)
      case None => if ms[|ms| - 1].eventId == id then Some(ms[|ms| - 1]) else None
  }

  lemma {:induction false} FirstRowIs(ms: seq<Mapped>, id: string)
    ensures FirstRow(ms, id) == None <==> forall m :: m in ms ==> m.eventId != id
    ensures FirstRow(ms, id).Some? ==> FirstRow(ms, id).value in ms && FirstRow(ms, id).value.eventId == id
  {
    if ms != [] {
      FirstRowIs(ms[..|ms| - 1], id);
      assert ms == ms[..|ms| - 1] + [ms[|ms| - 1]];
    }
  }

  /** What the observation table holds for `id` once `ms` were inserted. */
  function Stored(db: Database, d: Database, ms: seq<Mapped>, id: string): Option<Observation> {
    if id in db.observations then Some(db.observations[id])
    else
      match FirstRow(ms, id)
      case None => None
      case Some(f) =>
        match SourceProductId(d, f)
        case None => None
        case Some(sp) => Some(Observation(sp, f.payload))
  }

  lemma {:induction false} Inserted(d: Database, ms: seq<Mapped>, id: string)
    requires forall m :: m in ms ==> SourceProductId(d, m).Some?
    ensures var e := AddObservations(d, ms);
            e.sources == d.sources && e.sourceProducts == d.sourceProducts
            && Lookup(e.observations, id) == Stored(d, d, ms, id)
  {
    if ms != [] {
      var init, m := ms[..|ms| - 1], ms[|ms| - 1];
      assert ms == init + [m];
      Inserted(d, init, id);
      Inserted(d, init, m.eventId);
      assert SourceProductId(AddObservations(d, init), m) == SourceProductId(d, m);
      FirstRowIs(init, id);
    }
  }

  lemma {:induction false} NoConflictIff(db: Database, ms: seq<Mapped>)
    ensures FirstConflict(db, ms) == None <==> forall m :: m in ms ==> !Conflicts(db, m)
  {
    if ms != [] {
      NoConflictIff(db, ms[..|ms| - 1]);
      assert ms == ms[..|ms| - 1] + [ms[|ms| - 1]];
    }
  }

  predicate WellFormed(rows: seq<LakeRow>) {
    forall r :: r in rows ==> MapRow(r).Ok?
  }

  /** The mapped form of rows that all map. */
  function Mapping(rows: seq<LakeRow>): (ms: seq<Mapped>)
    requires WellFormed(rows)
    ensures |ms| == |rows| && forall i :: 0 <= i < |rows| ==> MapRow(rows[i]) == Ok(ms[i])
  {
    seq(|rows|, i requires 0 <= i < |rows| => assert rows[i] in rows; MapRow(rows[i]).value)
  }

  lemma {:induction false} MapsIffWellFormed(rows: seq<LakeRow>)
    ensures MapRows(rows).Ok? <==> WellFormed(rows)
    ensures WellFormed(rows) ==> MapRows(rows).value == Mapping(rows)
  {
    if rows != [] {
      var init, r := rows[..|rows| - 1], rows[|rows| - 1];
      assert rows == init + [r];
      MapsIffWellFormed(init);
      if WellFormed(init) && MapRow(r).Ok? {
        assert WellFormed(rows);
        assert Mapping(rows) == Mapping(init) + [MapRow(r).value];
      }
    }
  }

  /** The stored event has other data than the row. */
  predicate Disagrees(db: Database, m: Mapped) {
    m.eventId in db.observations && db.observations[m.eventId].payload != m.payload
  }

  /** A batch raises exactly when a row is malformed or disagrees with an observation that was
      stored before the batch. */
  lemma RaisesExactly(db: Database, rows: seq<LakeRow>, arrange: Arrange)
    requires IsArrangement(arrange)
    ensures LoadBatch(db, rows, arrange).Ok?
            <==> WellFormed(rows) && forall m :: m in Mapping(rows) ==> !Disagrees(db, m)
  {
    MapsIffWellFormed(rows);
    if WellFormed(rows) {
      var ms := Mapping(rows);
      NoRowSkipped(db, ms, arrange);
      var d := Upserted(db, ms, arrange);
      NoConflictIff(d, ms);
      assert forall m :: m in ms ==> (Conflicts(d, m) <==> Disagrees(db, m));
    }
  }

  /** The whole observation table after a committed batch: what was there stays, payload and link;
      a new event has the data of its first row, linked to that row's source product. */
  lemma CommittedBatch(db: Database, rows: seq<LakeRow>, arrange: Arrange, id: string)
    requires IsArrangement(arrange) && LoadBatch(db, rows, arrange).Ok?
    ensures WellFormed(rows)
    ensures var d := LoadBatch(db, rows, arrange).value;
            Lookup(d.observations, id) == Stored(db, d, Mapping(rows), id)
            && (forall m :: m in Mapping(rows) ==> SourceProductId(d, m).Some? && m.eventId in d.observations)
  {
    MapsIffWellFormed(rows);
    var ms := Mapping(rows);
    var d0 := Upserted(db, ms, arrange);
    NoRowSkipped(db, ms, arrange);
    Inserted(d0, ms, id);
    var d := AddObservations(d0, ms);
    forall m | m in ms ensures SourceProductId(d, m).Some? && m.eventId in d.observations {
      Inserted(d0, ms, m.eventId);
      FirstRowIs(ms, m.eventId);
    }
    FirstRowIs(ms, id);
  }

  // ---------------------------------------------------------------- data dropped in silence

  /** Rows with one event id carry one payload. */
  ghost predicate Consistent(ms: seq<Mapped>) {
    forall a, b :: a in ms && b in ms && a.eventId == b.eventId ==> a.payload == b.payload
  }

  ghost predicate AllStored(db: Database, ms: seq<Mapped>) {
    forall m :: m in ms ==> m.eventId in db.observations && db.observations[m.eventId].payload == m.payload
  }

  /** A batch that commits has stored the data of all of its rows exactly when they agree among
      themselves: a disagreement inside a batch is not reported, and the later row is dropped. */
  lemma CommittedDataIff(db: Database, rows: seq<LakeRow>, arrange: Arrange)
    requires IsArrangement(arrange) && LoadBatch(db, rows, arrange).Ok?
    ensures WellFormed(rows)
    ensures AllStored(LoadBatch(db, rows, arrange).value, Mapping(rows)) <==> Consistent(Mapping(rows))
  {
    RaisesExactly(db, rows, arrange);
    var d, ms := LoadBatch(db, rows, arrange).value, Mapping(rows);
    forall m | m in ms
      ensures m.eventId in d.observations
      ensures Consistent(ms) ==> d.observations[m.eventId].payload == m.payload
    {
      CommittedBatch(db, rows, arrange, m.eventId);
      FirstRowIs(ms, m.eventId);
      assert !Disagrees(db, m);
    }
  }

  /** Two rows of one event that disagree. */
  ghost predicate Clash(first: LakeRow, second: LakeRow, db: Database) {
    WellFormed([first]) && WellFormed([second])
    && MapRow(first).value.eventId == MapRow(second).value.eventId
    && MapRow(first).value.payload != MapRow(second).value.payload
    && MapRow(first).value.eventId !in db.observations
  }

  /** In one batch the second row is dropped without a word. */
  lemma ClashInOneBatch(db: Database, first: LakeRow, second: LakeRow, arrange: Arrange)
    requires IsArrangement(arrange) && Clash(first, second, db)
    ensures var r, m := LoadBatch(db, [first, second], arrange), MapRow(first).value;
            r.Ok? && m.eventId in r.value.observations && r.value.observations[m.eventId].payload == m.payload
  {
    var rows, a, b := [first, second], MapRow(first).value, MapRow(second).value;
    assert first in [first] && second in [second];
    assert WellFormed(rows);
    assert Mapping(rows) == [a, b];
    RaisesExactly(db, rows, arrange);
    CommittedBatch(db, rows, arrange, a.eventId);
    FirstOfTwo(a, b);
  }

  lemma FirstOfTwo(a: Mapped, b: Mapped)
    ensures FirstRow([a, b], a.eventId) == Some(a) && FirstRow([a], a.eventId) == Some(a)
  {
    assert [a][..0] == [] && [a, b][..1] == [a];
    assert FirstRow([], a.eventId) == None;
  }

  /** In two batches the second raises: whether a clash is reported depends on the batch size. */
  lemma ClashAcrossBatches(db: Database, first: LakeRow, second: LakeRow, arrange: Arrange)
    requires IsArrangement(arrange) && Clash(first, second, db)
    ensures var r := LoadBatch(db, [first], arrange);
            r.Ok? && LoadBatch(r.value, [second], arrange).Err?
  {
    var a, b := MapRow(first).value, MapRow(second).value;
    assert first in [first] && second in [second];
    assert Mapping([first]) == [a] && Mapping([second]) == [b];
    RaisesExactly(db, [first], arrange);
    CommittedBatch(db, [first], arrange, a.eventId);
    FirstOfTwo(a, b);
    var d := LoadBatch(db, [first], arrange).value;
    RaisesExactly(d, [second], arrange);
    assert b in [b] && Disagrees(d, b);
  }

  // ---------------------------------------------------------------- which conflict, which url

  /** The reported conflict is the first row that disagrees with a stored observation. */
  lemma FirstDisagreement(db: Database, rows: seq<LakeRow>, arrange: Arrange, i: nat)
    requires IsArrangement(arrange) && WellFormed(rows) && i < |rows|
    requires Disagrees(db, Mapping(rows)[i]) && forall j :: 0 <= j < i ==> !Disagrees(db, Mapping(rows)[j])
    ensures LoadBatch(db, rows, arrange) == Err(Conflict(rows[i].eventId))
  {
    MapsIffWellFormed(rows);
    var ms := Mapping(rows);
    NoRowSkipped(db, ms, arrange);
    var d := Upserted(db, ms, arrange);
    forall j | 0 <= j < |ms| ensures Conflicts(d, ms[j]) <==> Disagrees(db, ms[j]) {
      assert ms[j] in ms;
    }
    FirstConflictIs(d, ms, i);
    assert MapRow(rows[i]) == Ok(ms[i]);
    MapsIff(rows[i]);
  }

  lemma {:induction false} FirstConflictIs(db: Database, ms: seq<Mapped>, i: nat)
    requires i < |ms| && Conflicts(db, ms[i]) && forall j :: 0 <= j < i ==> !Conflicts(db, ms[j])
    ensures FirstConflict(db, ms) == Some(ms[i].eventId)
  {
    var init := ms[..|ms| - 1];
    if i < |init| {
      FirstConflictIs(db, init, i);
    } else {
      NoConflictIff(db, init);
    }
  }

  /** A listing already known keeps its entry; a new one gets the url of a row of the batch that names
      its source and its external id. */
  ghost predicate UrlFrom(db: Database, d: Database, ms: seq<Mapped>, key: (nat, string)) {
    if key in db.sourceProducts then key in d.sourceProducts && d.sourceProducts[key] == db.sourceProducts[key]
    else key in d.sourceProducts ==>
      exists m :: m in ms && Lookup(d.sources, m.source) == Some(key.0) && m.externalId == key.1
                  && d.sourceProducts[key].url == m.url
  }

  lemma {:induction false} UrlsAdded(db: Database, ms: seq<Mapped>, key: (nat, string))
    ensures AddSourceProducts(db, ms).sources == db.sources && UrlFrom(db, AddSourceProducts(db, ms), ms, key)
  {
    if ms != [] {
      UrlsAdded(db, ms[..|ms| - 1], key);
      assert ms == ms[..|ms| - 1] + [ms[|ms| - 1]];
    }
  }

  lemma SourceProductUrls(db: Database, rows: seq<LakeRow>, arrange: Arrange, key: (nat, string))
    requires IsArrangement(arrange) && LoadBatch(db, rows, arrange).Ok?
    ensures WellFormed(rows) && UrlFrom(db, LoadBatch(db, rows, arrange).value, Mapping(rows), key)
  {
    MapsIffWellFormed(rows);
    var ms := Mapping(rows);
    SourcesAdded(db, ms);
    NoRowSkipped(db, ms, arrange);
    UrlsAdded(AddSources(db, ms), arrange(ms), key);
    Inserted(Upserted(db, ms, arrange), ms, "");
  }
}
