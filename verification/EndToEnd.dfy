/** Across components: the keys the writers use satisfy what compaction assumes, and the warehouse
    does not notice at what moment of a compaction the lake was read. */
module EndToEnd {
  import opened Common
  import opened Text
  import opened Events
  import opened Compaction
  import opened CompactionSafety
  import opened CompactionConservation
  import opened CompactionRuns
  import ExactlyOnce
  import Kafka
  import Keys = PartitionKey
  import RawWriter
  import Warehouse
  import WarehouseLoads

  // ---------------------------------------------------------------- writers and the compactor

  /** The compactor takes a writer's file for a source, unless the sanitised event id starts like a
      compacted file's name: such a file is never merged. */
  lemma WriterKeyIsSourceIff(e: Event, layer: Keys.LakeLayer)
    ensures IsSource(Keys.BuildPartitionKey(e, layer)) <==> !(COMPACTED <= Keys.FileName(e))
  {
    var parts := Keys.PartitionParts(Keys.LayerName(layer), Keys.EventSource(e), e.collectedAt.date);
    var directory := Directory(parts);
    Keys.EventPartsFree(e, layer);
    DirectoryEnds(parts);
    assert directory == directory[..|directory| - 1] + "/";
    FileNameUnder(directory[..|directory| - 1], Keys.FileName(e));
    var key := Keys.BuildPartitionKey(e, layer);
    assert key[|key| - |PARQUET|..] == PARQUET;
  }

  lemma {:induction false} DirectoryEnds(ps: seq<string>)
    requires ps != []
    ensures IsPrefix(Directory(ps))
  {
    if |ps| > 1 {
      DirectoryEnds(ps[1..]);
    }
  }

  /** The directory discovery counts a writer's file in is the event's partition directory. */
  lemma WriterKeyParent(e: Event, layer: Keys.LakeLayer)
    ensures '/' in Keys.BuildPartitionKey(e, layer)
    ensures Parent(Keys.BuildPartitionKey(e, layer))
         == Directory(Keys.PartitionParts(Keys.LayerName(layer), Keys.EventSource(e), e.collectedAt.date))
  {
    var parts := Keys.PartitionParts(Keys.LayerName(layer), Keys.EventSource(e), e.collectedAt.date);
    var key, directory := Keys.BuildPartitionKey(e, layer), Directory(parts);
    Keys.EventPartsFree(e, layer);
    DirectoryEnds(parts);
    assert key[|directory| - 1] == '/';
    KeyIsParentAndName(key);
    SameCut(Parent(key), FileName(key), directory, Keys.FileName(e));
  }

  /** The object key the writers use for the event a row holds. */
  function LakeKey(layer: Keys.LakeLayer, eventOf: Row -> Event): KeyOf {
    (r: Row) => Keys.BuildPartitionKey(eventOf(r), layer)
  }

  /** A row that carries its event's id, which does not look like a compacted file. */
  ghost predicate WrittenRow(r: Row, eventOf: Row -> Event) {
    eventOf(r).eventId == r.eventId && ValidDate(eventOf(r).collectedAt.date)
    && !(COMPACTED <= Keys.FileName(eventOf(r)))
  }

  /** Ids that survive sanitising: either none needs it, or the adapters built them all and
      sanitising merges neither two sources nor two external ids. */
  ghost predicate ToldApart(eventOf: Row -> Event, rows: iset<Row>) {
    (forall r :: r in rows ==> Keys.SafeSegment(r.eventId))
    || ((forall r :: r in rows ==> Keys.AdapterEvent(eventOf(r)))
        && (forall a, b :: a in rows && b in rows ==> Unmerged(eventOf(a), eventOf(b))))
  }

  predicate Unmerged(a: Event, b: Event) {
    (Keys.EventSource(a) == Keys.EventSource(b) ==> a.source == b.source)
    && (Keys.Sanitize(a.externalId, "_") == Keys.Sanitize(b.externalId, "_") ==> a.externalId == b.externalId)
  }

  lemma ToldApartByKey(layer: Keys.LakeLayer, eventOf: Row -> Event, rows: iset<Row>)
    requires (forall r :: r in rows ==> WrittenRow(r, eventOf)) && ToldApart(eventOf, rows)
    ensures KeyDeterminesEvent(LakeKey(layer, eventOf), rows)
  {
    var keyOf := LakeKey(layer, eventOf);
    forall a, b | a in rows && b in rows && keyOf(a) == keyOf(b) ensures a.eventId == b.eventId {
      if forall r :: r in rows ==> Keys.SafeSegment(r.eventId) {
        Keys.KeyEquality(eventOf(a), layer, eventOf(b), layer);
        Keys.SafeIsFixed(a.eventId, "_");
        Keys.SafeIsFixed(b.eventId, "_");
      } else {
        Keys.AdapterKeyEquality(eventOf(a), layer, eventOf(b), layer);
        assert Unmerged(eventOf(a), eventOf(b));
      }
    }
  }

  /** A run whose listings are complete and whose compacted files get new names; of the writers it
      assumes nothing. */
  ghost predicate SoundRun(m: Machine, steps: seq<Step>, job: Job, keyOf: KeyOf) {
    steps == [] ||
    (var init := steps[..|steps| - 1];
     var s := steps[|steps| - 1];
     SoundRun(m, init, job, keyOf) && (s.Write? || Legal(Run(m, init, job, keyOf), s, job, keyOf)))
  }

  lemma {:induction false} LakeWritesLegal(m: Machine, steps: seq<Step>, job: Job, layer: Keys.LakeLayer,
                                            eventOf: Row -> Event)
    requires SoundRun(m, steps, job, LakeKey(layer, eventOf))
    requires forall r :: Write(r) in steps ==> WrittenRow(r, eventOf)
    ensures LegalRun(m, steps, job, LakeKey(layer, eventOf))
  {
    if steps != [] {
      var n := |steps| - 1;
      assert forall r :: Write(r) in steps[..n] ==> Write(r) in steps;
      LakeWritesLegal(m, steps[..n], job, layer, eventOf);
      if steps[n].Write? {
        assert Write(steps[n].row) in steps;
        WriterKeyIsSourceIff(eventOf(steps[n].row), layer);
      }
    }
  }

  /** With the program's own key builder: the writers of a lake put rows whose ids survive
      sanitising, from an empty store on, with compactions, crashes and retries in between. No event
      ever put in a partition disappears from it. */
  lemma NoLakeEventLost(steps: seq<Step>, i: nat, id: string, job: Job, layer: Keys.LakeLayer, eventOf: Row -> Event)
    requires IsPrefix(job.prefix) && SoundRun(Machine(map[], Idle), steps, job, LakeKey(layer, eventOf))
    requires forall r :: Write(r) in steps ==> WrittenRow(r, eventOf)
    requires ToldApart(eventOf, Occurring(Machine(map[], Idle), steps))
    requires i <= |steps|
    requires HasEvent(Run(Machine(map[], Idle), steps[..i], job, LakeKey(layer, eventOf)).objects, job.prefix, id)
    ensures HasEvent(Run(Machine(map[], Idle), steps, job, LakeKey(layer, eventOf)).objects, job.prefix, id)
  {
    var m, keyOf := Machine(map[], Idle), LakeKey(layer, eventOf);
    var rows := Occurring(m, steps);
    LakeWritesLegal(m, steps, job, layer, eventOf);
    OccurringSuffice(m, steps);
    ToldApartByKey(layer, eventOf, rows);
    NoEventDisappears(m, steps, i, id, job, keyOf, rows);
  }

  /** Such runs exist: writing any one event with an adapter's id is one, and puts it there. */
  lemma OneWriteIsSuch(e: Event, layer: Keys.LakeLayer)
    requires Keys.AdapterEvent(e) && ValidDate(e.collectedAt.date) && !(COMPACTED <= Keys.FileName(e))
    ensures var job := Job(Directory(Keys.PartitionParts(Keys.LayerName(layer), Keys.EventSource(e), e.collectedAt.date)), 2);
            var steps, eventOf := [Write(Row(e.eventId, ""))], (_: Row) => e;
            var keyOf := LakeKey(layer, eventOf);
            IsPrefix(job.prefix) && SoundRun(Machine(map[], Idle), steps, job, keyOf)
            && (forall r :: Write(r) in steps ==> WrittenRow(r, eventOf))
            && ToldApart(eventOf, Occurring(Machine(map[], Idle), steps))
            && HasEvent(Run(Machine(map[], Idle), steps, job, keyOf).objects, job.prefix, e.eventId)
  {
    var parts := Keys.PartitionParts(Keys.LayerName(layer), Keys.EventSource(e), e.collectedAt.date);
    DirectoryEnds(parts);
    var r, eventOf := Row(e.eventId, ""), (_: Row) => e;
    var m, keyOf, job := Machine(map[], Idle), LakeKey(layer, eventOf), Job(Directory(parts), 2);
    var steps := [Write(r)];
    assert steps[..0] == [] && Run(m, steps[..0], job, keyOf) == m;
    assert Run(m, steps, job, keyOf).objects == map[keyOf(r) := [r]];
    assert keyOf(r) == Keys.BuildPartitionKey(eventOf(r), layer) == Keys.BuildPartitionKey(e, layer);
    assert Keys.BuildPartitionKey(e, layer) == Directory(parts) + Keys.FileName(e);
    assert job.prefix <= keyOf(r);
    assert map[keyOf(r) := [r]][keyOf(r)][0] == r;
  }

  // ---------------------------------------------------------------- the producer and the writers

  /** The event occurs in the log of a partition. */
  ghost predicate Logged(logs: map<Kafka.Partition, seq<Kafka.Record>>, p: Kafka.Partition, e: Event) {
    p in logs && Kafka.Valid(e) in logs[p]
  }

  /** The producer keys a message by source and external id, and the broker sends equal keys to one
      partition. */
  ghost predicate Routed(logs: map<Kafka.Partition, seq<Kafka.Record>>, route: string -> Kafka.Partition) {
    forall p, e :: Logged(logs, p, e) ==> p == route(e.source + ":" + e.externalId)
  }

  /** With the adapters' ids, the producer's routing and no two merged names, no object key is shared
      between partitions: what `ExactlyOnce` assumes. */
  lemma RoutedIsSeparate(logs: map<Kafka.Partition, seq<Kafka.Record>>, route: string -> Kafka.Partition)
    requires Routed(logs, route)
    requires forall p, e :: Logged(logs, p, e) ==> Keys.AdapterEvent(e) && ValidDate(e.collectedAt.date)
    requires forall p, q, a, b :: Logged(logs, p, a) && Logged(logs, q, b) ==> Unmerged(a, b)
    ensures ExactlyOnce.Separate(logs, Kafka.Prepare)
  {
    forall p, q, key | p in logs && q in logs && ExactlyOnce.Owns(logs[p], key, Kafka.Prepare)
      ensures ExactlyOnce.Owns(logs[q], key, Kafka.Prepare) ==> p == q
    {
      if ExactlyOnce.Owns(logs[q], key, Kafka.Prepare) {
        var a := OwnerOf(logs, p, key);
        var b := OwnerOf(logs, q, key);
        Keys.AdapterKeyEquality(a, Keys.Bronze, b, Keys.Bronze);
        assert Unmerged(a, b);
      }
    }
  }

  lemma OwnerOf(logs: map<Kafka.Partition, seq<Kafka.Record>>, p: Kafka.Partition, key: string) returns (e: Event)
    requires p in logs && ExactlyOnce.Owns(logs[p], key, Kafka.Prepare)
    ensures Logged(logs, p, e) && Keys.BuildPartitionKey(e, Keys.Bronze) == key
  {
    var i :| 0 <= i < |logs[p]| && logs[p][i].Valid? && ExactlyOnce.KeyAt(logs[p], i, Kafka.Prepare) == key;
    e := logs[p][i].event;
    assert logs[p][i] == Kafka.Valid(e);
  }

  /** Services that make the same of every event need the same separation. */
  lemma SeparateSame(logs: map<Kafka.Partition, seq<Kafka.Record>>, f: ExactlyOnce.Prep, g: ExactlyOnce.Prep)
    requires ExactlyOnce.Separate(logs, f) && forall e :: f(e) == g(e)
    ensures ExactlyOnce.Separate(logs, g)
  {
    forall p, key | p in logs ensures ExactlyOnce.Owns(logs[p], key, g) <==> ExactlyOnce.Owns(logs[p], key, f) {
      OwnsSame(logs[p], key, f, g);
      OwnsSame(logs[p], key, g, f);
    }
  }

  lemma OwnsSame(log: seq<Kafka.Record>, key: string, f: ExactlyOnce.Prep, g: ExactlyOnce.Prep)
    requires forall e :: f(e) == g(e)
    ensures ExactlyOnce.Owns(log, key, f) ==> ExactlyOnce.Owns(log, key, g)
  {
    if ExactlyOnce.Owns(log, key, f) {
      var i :| 0 <= i < |log| && log[i].Valid? && ExactlyOnce.KeyAt(log, i, f) == key;
      assert ExactlyOnce.KeyAt(log, i, g) == key;
    }
  }

  /** Exactly-once effects without an assumption about keys: from the empty system, over every run of
      the service on the adapters' events, the Bronze store is the fold of each partition's log up to
      the committed offset, or of one record more. */
  lemma RoutedExactlyOnce(w: Kafka.World, steps: seq<RawWriter.Step>, retry: Kafka.RetryPolicy, route: string -> Kafka.Partition)
    requires RawWriter.Initial(w) && Kafka.ValidPolicy(retry)
    requires forall i :: 0 <= i < |steps| ==> ExactlyOnce.RawStep(steps[i])
    requires var logs := RawWriter.Run(w, steps, Kafka.BronzeService(retry)).logs;
             && Routed(logs, route)
             && (forall p, e :: Logged(logs, p, e) ==> Keys.AdapterEvent(e) && ValidDate(e.collectedAt.date))
             && (forall p, q, a, b :: Logged(logs, p, a) && Logged(logs, q, b) ==> Unmerged(a, b))
    ensures ExactlyOnce.StoreInv(RawWriter.Run(w, steps, Kafka.BronzeService(retry)), Kafka.BronzeService(retry).prepare)
  {
    var service := Kafka.BronzeService(retry);
    var logs := RawWriter.Run(w, steps, service).logs;
    RoutedIsSeparate(logs, route);
    SeparateSame(logs, Kafka.Prepare, service.prepare);
    ExactlyOnce.InitialStoreInv(w, service.prepare);
    ExactlyOnce.EffectsExactlyOnce(w, steps, service);
  }

  // ---------------------------------------------------------------- the lake and the warehouse

  /** The rows a reader gets from the files of a partition. */
  function Scan(objects: Objects, files: seq<string>, decode: Row -> Warehouse.LakeRow): seq<Warehouse.LakeRow>
    requires forall k :: k in files ==> k in objects
  {
    var rows := Combined(objects, files);
    seq(|rows|, i requires 0 <= i < |rows| => decode(rows[i]))
  }

  lemma ScanHolds(objects: Objects, prefix: string, files: seq<string>, decode: Row -> Warehouse.LakeRow,
                  r: Warehouse.LakeRow)
    requires IsListing(objects, prefix, files)
    ensures r in Scan(objects, files, decode) <==> exists row :: HasRow(objects, prefix, row) && decode(row) == r
  {
    var rows := Combined(objects, files);
    var scan := Scan(objects, files, decode);
    if r in scan {
      var i :| 0 <= i < |scan| && scan[i] == r;
      CombinedRows(objects, files, rows[i]);
      assert HasRow(objects, prefix, rows[i]);
    }
    if exists row :: HasRow(objects, prefix, row) && decode(row) == r {
      var row :| HasRow(objects, prefix, row) && decode(row) == r;
      CombinedRows(objects, files, row);
      var i :| 0 <= i < |rows| && rows[i] == row;
      assert scan[i] == r;
    }
  }

  /** Whenever the partition is read, before, during or after compactions that may have been
      interrupted any number of times, loading it gives every event the data it would have had
      without any compaction; batch sizes may differ as well. */
  lemma CompactionInvisibleToWarehouse(
      start: Objects, steps: seq<Step>, job: Job, keyOf: KeyOf, filesA: seq<string>, filesB: seq<string>,
      decode: Row -> Warehouse.LakeRow, db: Warehouse.Database, sizeA: nat, sizeB: nat,
      arrange: Warehouse.Arrange, id: string)
    requires IsPrefix(job.prefix) && Quiet(steps) && LegalRun(Machine(start, Idle), steps, job, keyOf)
    requires IsListing(start, job.prefix, filesA)
    requires IsListing(Run(Machine(start, Idle), steps, job, keyOf).objects, job.prefix, filesB)
    requires sizeA > 0 && sizeB > 0 && Warehouse.IsArrangement(arrange)
    requires WarehouseLoads.ConflictFree(db, Scan(start, filesA, decode))
    ensures var now := Run(Machine(start, Idle), steps, job, keyOf).objects;
            var a := Warehouse.Load(db, Scan(start, filesA, decode), sizeA, arrange, []);
            var b := Warehouse.Load(db, Scan(now, filesB, decode), sizeB, arrange, []);
            a.result.error == b.result.error == None && WarehouseLoads.View(a.db, id) == WarehouseLoads.View(b.db, id)
  {
    var now := Run(Machine(start, Idle), steps, job, keyOf).objects;
    var a, b := Scan(start, filesA, decode), Scan(now, filesB, decode);
    RowsNeverChange(start, steps, job, keyOf);
    forall r ensures r in a <==> r in b {
      ScanHolds(start, job.prefix, filesA, decode, r);
      ScanHolds(now, job.prefix, filesB, decode, r);
    }
    WarehouseLoads.OrderAndBatchesIrrelevant(db, a, b, sizeA, sizeB, arrange, arrange, id);
  }
}
