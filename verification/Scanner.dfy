/** Partition discovery and pruning over the lake's object keys. */
module Scanner {
  import opened Common
  import opened Text
  import opened Events
  import opened PartitionKey

  datatype PartitionInfo = PartitionInfo(
    layer: string, source: string, year: int, month: int, day: int, fileCount: nat, prefix: string)

  datatype Filter = Filter(layer: string, source: Option<string>, start: Option<Date>, end: Option<Date>)

  datatype ScanError = InvalidDate

  function ParsePartitionPrefix(prefix: string): (r: Option<PartitionInfo>)
    ensures r.Some? ==> r.value.prefix == prefix && r.value.fileCount == 0
  {
    var parts := Split(RStripSlash(prefix), '/');
    if |parts| != 5 then None
    else if !("source=" <= parts[1] && "year=" <= parts[2] && "month=" <= parts[3] && "day=" <= parts[4]) then None
    else
      match (ParseInt(parts[2][5..]), ParseInt(parts[3][6..]), ParseInt(parts[4][4..]))
      case (Some(y), Some(m), Some(d)) => Some(PartitionInfo(parts[0], parts[1][7..], y, m, d, 0, prefix))
      case _ => None
  }

  /** `date(year, month, day)`. */
  function MakeDate(y: int, m: int, d: int): Result<Date, ScanError> {
    if y >= 0 && m >= 0 && d >= 0 && ValidDate(Date(y, m, d)) then Ok(Date(y, m, d)) else Err(InvalidDate)
  }

  lemma MakeDateIff(y: int, m: int, d: int)
    ensures MakeDate(y, m, d).Ok? <==> 1 <= y <= 9999 && 1 <= m <= 12 && 1 <= d <= DaysInMonth(y, m)
    ensures MakeDate(y, m, d).Ok? ==> MakeDate(y, m, d).value == Date(y, m, d)
  {
  }

  predicate InRange(filter: Filter, d: Date) {
    && (filter.start.Some? ==> !Before(d, filter.start.value))
    && (filter.end.Some? ==> !Before(filter.end.value, d))
  }

  /** Both ends of the range belong to it. */
  lemma InRangeIff(filter: Filter, d: Date)
    requires ValidDate(d)
    requires (filter.start.Some? ==> ValidDate(filter.start.value)) && (filter.end.Some? ==> ValidDate(filter.end.value))
    ensures InRange(filter, d)
       <==> (filter.start.Some? ==> DayNumber(filter.start.value) <= DayNumber(d))
            && (filter.end.Some? ==> DayNumber(d) <= DayNumber(filter.end.value))
  {
    if filter.start.Some? { BeforeIff(d, filter.start.value); }
    if filter.end.Some? { BeforeIff(filter.end.value, d); }
  }

  /** What a prefix that parses looks like: five components, and numbers in the last three. */
  ghost predicate Shaped(prefix: string, info: PartitionInfo, y: string, m: string, d: string) {
    && (forall c :: c in [info.layer, info.source, y, m, d] ==> Free(c, '/'))
    && RStripSlash(prefix) == Join([info.layer, "source=" + info.source, "year=" + y, "month=" + m, "day=" + d])
    && ParseInt(y) == Some(info.year) && ParseInt(m) == Some(info.month) && ParseInt(d) == Some(info.day)
  }

  lemma ParsedIsShaped(prefix: string) returns (y: string, m: string, d: string)
    requires ParsePartitionPrefix(prefix).Some?
    ensures Shaped(prefix, ParsePartitionPrefix(prefix).value, y, m, d)
  {
    var body := RStripSlash(prefix);
    var parts := Split(body, '/');
    JoinSplit(body);
    SplitPartsFree(body, '/');
    y, m, d := parts[2][5..], parts[3][6..], parts[4][4..];
    assert parts[1] == "source=" + parts[1][7..] && parts[2] == "year=" + y;
    assert parts[3] == "month=" + m && parts[4] == "day=" + d;
    assert parts == [parts[0], parts[1], parts[2], parts[3], parts[4]];
  }

  /** Exactly these prefixes parse, to this. */
  lemma ShapedParses(prefix: string, info: PartitionInfo, y: string, m: string, d: string)
    requires Shaped(prefix, info, y, m, d)
    ensures ParsePartitionPrefix(prefix) == Some(info.(fileCount := 0, prefix := prefix))
  {
    var parts := [info.layer, "source=" + info.source, "year=" + y, "month=" + m, "day=" + d];
    var texts := [info.layer, info.source, y, m, d];
    assert info.layer in texts && info.source in texts && y in texts && m in texts && d in texts;
    SplitJoin(parts);
    assert parts[1][7..] == info.source && parts[2][5..] == y && parts[3][6..] == m && parts[4][4..] == d;
  }

  function DateOf(info: PartitionInfo): Result<Date, ScanError> {
    MakeDate(info.year, info.month, info.day)
  }

  /** A directory that looks like a partition but names no calendar date makes discovery raise. */
  predicate Raises(prefix: string) {
    var info := ParsePartitionPrefix(prefix);
    info.Some? && DateOf(info.value).Err?
  }

  predicate Admits(filter: Filter, prefix: string) {
    var info := ParsePartitionPrefix(prefix);
    info.Some? && DateOf(info.value).Ok? && InRange(filter, DateOf(info.value).value)
  }

  function ScanPrefix(filter: Filter): string {
    if filter.source.Some? then Directory([filter.layer, SourcePart(filter.source.value)]) else Directory([filter.layer])
  }

  /** The directory part of a key: everything up to its fifth component. */
  function PartitionOf(k: string): Option<string> {
    if |Split(k, '/')| >= 5 then Some(Directory(Split(k, '/')[..5])) else None
  }

  ghost predicate FiveDirectories(prefix: string) {
    exists ps: seq<string> :: |ps| == 5 && (forall i :: 0 <= i < 5 ==> Free(ps[i], '/')) && prefix == Directory(ps)
  }

  /** The directory part is five directories deep, and the key, or the key taken for a directory, lies
      in it. */
  lemma PartitionOfIff(k: string, prefix: string)
    ensures PartitionOf(k) == Some(prefix) <==> FiveDirectories(prefix) && prefix <= k + "/"
  {
    SplitSlash(k);
    var parts := Split(k, '/');
    if FiveDirectories(prefix) {
      var ps: seq<string> :| |ps| == 5 && (forall i :: 0 <= i < 5 ==> Free(ps[i], '/')) && prefix == Directory(ps);
      DirectoryPrefix(ps, k + "/");
      assert |parts| >= 5 ==> (parts + [""])[..5] == parts[..5];
    }
    if |parts| >= 5 {
      SplitPartsFree(k, '/');
      DirectoryPrefix(parts[..5], k + "/");
      assert (parts + [""])[..5] == parts[..5];
    }
  }

  ghost predicate Discovered(objects: seq<string>, filter: Filter, prefix: string) {
    exists k :: k in objects && ScanPrefix(filter) <= k && PartitionOf(k) == Some(prefix)
  }

  /** `storage.list_objects`: the keys under a prefix. */
  function ListObjects(objects: seq<string>, prefix: string): (r: seq<string>)
    ensures forall k :: k in r <==> k in objects && prefix <= k
    ensures Distinct(objects) ==> Distinct(r)
  {
    if objects == [] then []
    else
      var init, last := objects[..|objects| - 1], objects[|objects| - 1];
      assert objects == init + [last];
      assert Distinct(objects) ==> Distinct(init) && last !in init;
      var r0 := ListObjects(init, prefix);
      var tail := if prefix <= last then [last] else [];
      assert Distinct(objects) ==> Distinct(r0 + tail) by {
        if Distinct(objects) { DistinctConcat(r0, tail); }
      }
      r0 + tail
  }

  ghost predicate InSome(keys: seq<string>, prefix: string) {
    exists k :: k in keys && PartitionOf(k) == Some(prefix)
  }

  lemma InSomeSnoc(keys: seq<string>, last: string)
    ensures forall pp :: InSome(keys + [last], pp) <==> InSome(keys, pp) || PartitionOf(last) == Some(pp)
  {
    forall pp
      ensures InSome(keys + [last], pp) <==> InSome(keys, pp) || PartitionOf(last) == Some(pp)
    {
      assert last in keys + [last];
    }
  }

  method PartitionPrefixes(objects: seq<string>, filter: Filter) returns (prefixes: seq<string>)
    ensures Distinct(prefixes)
    ensures forall pp :: pp in prefixes <==> Discovered(objects, filter, pp)
  {
    prefixes := [];
    var listed := ListObjects(objects, ScanPrefix(filter));
    for i := 0 to |listed|
      invariant Distinct(prefixes)
      invariant forall pp :: pp in prefixes <==> InSome(listed[..i], pp)
    {
      assert listed[..i + 1] == listed[..i] + [listed[i]];
      InSomeSnoc(listed[..i], listed[i]);
      var parts := Split(listed[i], '/');
      if |parts| >= 5 {
        var pp := Directory(parts[..5]);
        if pp !in prefixes {
          prefixes := prefixes + [pp];
        }
      }
    }
    assert listed[..|listed|] == listed;
    forall pp
      ensures pp in prefixes <==> Discovered(objects, filter, pp)
    {
      if pp in prefixes {
        var k :| k in listed && PartitionOf(k) == Some(pp);
        assert k in objects;
      }
      if Discovered(objects, filter, pp) {
        var k :| k in objects && ScanPrefix(filter) <= k && PartitionOf(k) == Some(pp);
        assert k in listed;
      }
    }
  }

  // ---------------------------------------------------------------- file counts

  /** The parquet keys of a listing under a prefix. */
  function ParquetUnder(listed: seq<string>, prefix: string): (r: seq<string>)
    ensures forall k :: k in r <==> k in listed && prefix <= k && EndsWith(k, EXTENSION)
  {
    if listed == [] then []
    else
      var last := listed[|listed| - 1];
      assert listed == listed[..|listed| - 1] + [last];
      ParquetUnder(listed[..|listed| - 1], prefix) + (if prefix <= last && EndsWith(last, EXTENSION) then [last] else [])
  }

  /** The prefix that the count looks for: `lstrip` strips characters, not the layer's name. */
  function CountedPrefix(layer: string, prefix: string): string {
    LStrip(prefix, layer + "/")
  }

  function FileCount(listed: seq<string>, layer: string, prefix: string): nat {
    |ParquetUnder(listed, CountedPrefix(layer, prefix))|
  }

  ghost predicate UnderLayer(layer: string, listed: seq<string>) {
    forall k :: k in listed ==> layer + "/" <= k
  }

  /** What a key of the layer cannot start with, the stripped prefix does start with. */
  lemma NothingCounted(listed: seq<string>, layer: string, prefix: string)
    requires UnderLayer(layer, listed) && CountedPrefix(layer, prefix) != ""
    ensures FileCount(listed, layer, prefix) == 0
  {
    var counted := CountedPrefix(layer, prefix);
    forall k | k in listed
      ensures !(counted <= k)
    {
      assert layer + "/" <= k && k[0] == (layer + "/")[0];
      assert counted[0] !in layer + "/";
    }
    NoneUnder(listed, counted);
  }

  lemma {:induction false} NoneUnder(listed: seq<string>, prefix: string)
    requires forall k :: k in listed ==> !(prefix <= k && EndsWith(k, EXTENSION))
    ensures ParquetUnder(listed, prefix) == []
  {
    if listed != [] {
      NoneUnder(listed[..|listed| - 1], prefix);
      assert listed[|listed| - 1] in listed;
    }
  }

  /** The reported count is the number of parquet files exactly when there are none, for every
      partition of a layer whose name has no equals sign: the count is always zero. */
  lemma FileCountIff(listed: seq<string>, layer: string, prefix: string)
    requires UnderLayer(layer, listed) && Free(layer, '=') && ParsePartitionPrefix(prefix).Some?
    ensures FileCount(listed, layer, prefix) == 0
    ensures FileCount(listed, layer, prefix) == |ParquetUnder(listed, prefix)|
       <==> !exists k :: k in listed && prefix <= k && EndsWith(k, EXTENSION)
  {
    var parts := Split(RStripSlash(prefix), '/');
    assert parts[1][6] == '=';
    SplitKeeps(RStripSlash(prefix), '/', 1, 6);
    RStripKeeps(prefix);
    assert '=' in prefix && '=' !in layer + "/";
    NothingCounted(listed, layer, prefix);
    if !exists k :: k in listed && prefix <= k && EndsWith(k, EXTENSION) {
      NoneUnder(listed, prefix);
    }
  }

  lemma {:induction false} SplitKeeps(s: string, sep: char, i: nat, j: nat)
    requires i < |Split(s, sep)| && j < |Split(s, sep)[i]|
    ensures Split(s, sep)[i][j] in s
  {
    if s != "" {
      var rest := Split(s[1..], sep);
      if s[0] == sep {
        if i > 0 { SplitKeeps(s[1..], sep, i - 1, j); }
      } else if i > 0 {
        SplitKeeps(s[1..], sep, i, j);
      } else if j > 0 {
        SplitKeeps(s[1..], sep, 0, j - 1);
      }
    }
  }

  lemma {:induction false} RStripKeeps(s: string)
    ensures forall c :: c in RStripSlash(s) ==> c in s
  {
    if s != "" && s[|s| - 1] == '/' {
      RStripKeeps(s[..|s| - 1]);
    }
  }

  // ---------------------------------------------------------------- listing partitions

  ghost predicate DistinctPrefixes(infos: seq<PartitionInfo>) {
    forall i, j :: 0 <= i < j < |infos| ==> infos[i].prefix != infos[j].prefix
  }

  ghost predicate OrderedPrefixes(infos: seq<PartitionInfo>) {
    forall i, j :: 0 <= i < j < |infos| ==> LexLe(infos[i].prefix, infos[j].prefix)
  }

  ghost predicate HasPrefix(infos: seq<PartitionInfo>, pp: string) {
    exists i :: 0 <= i < |infos| && infos[i].prefix == pp
  }

  /** Each entry is its parsed prefix with the count that the listing gives it. */
  ghost predicate Described(infos: seq<PartitionInfo>, listed: seq<string>, layer: string) {
    forall i :: 0 <= i < |infos| ==>
      && ParsePartitionPrefix(infos[i].prefix).Some?
      && infos[i] == ParsePartitionPrefix(infos[i].prefix).value.(
                       fileCount := FileCount(listed, layer, infos[i].prefix))
  }

  /** `result` holds the admitted ones among the prefixes seen, in their order. */
  ghost predicate Collected(result: seq<PartitionInfo>, seen: seq<string>, filter: Filter) {
    && DistinctPrefixes(result) && OrderedPrefixes(result)
    && forall pp :: HasPrefix(result, pp) <==> pp in seen && Admits(filter, pp)
  }

  lemma CollectNext(result: seq<PartitionInfo>, seen: seq<string>, info: PartitionInfo, filter: Filter)
    requires Collected(result, seen, filter) && info.prefix !in seen && Admits(filter, info.prefix)
    requires forall pp :: pp in seen ==> LexLe(pp, info.prefix)
    ensures Collected(result + [info], seen + [info.prefix], filter)
  {
    AddPrefix(result, info);
    assert !HasPrefix(result, info.prefix);
    forall i | 0 <= i < |result| ensures LexLe(result[i].prefix, info.prefix) {
      assert HasPrefix(result, result[i].prefix);
    }
  }

  lemma DescribeNext(infos: seq<PartitionInfo>, listed: seq<string>, layer: string, info: PartitionInfo)
    requires Described(infos, listed, layer) && ParsePartitionPrefix(info.prefix) == Some(info)
    ensures Described(infos + [info.(fileCount := FileCount(listed, layer, info.prefix))], listed, layer)
  {
  }

  method ListPartitions(objects: seq<string>, filter: Filter) returns (r: Result<seq<PartitionInfo>, ScanError>)
    ensures r.Err? <==> exists pp :: Discovered(objects, filter, pp) && Raises(pp)
    ensures r.Ok? ==> DistinctPrefixes(r.value) && OrderedPrefixes(r.value)
    ensures r.Ok? ==> forall pp :: HasPrefix(r.value, pp) <==> Discovered(objects, filter, pp) && Admits(filter, pp)
    ensures r.Ok? ==> Described(r.value, ListObjects(objects, ScanPrefix(filter)), filter.layer)
  {
    var found := PartitionPrefixes(objects, filter);
    var prefixes := Sorted(found);
    SortedOrders(found);
    var listed := ListObjects(objects, ScanPrefix(filter));
    var result: seq<PartitionInfo> := [];
    for i := 0 to |prefixes|
      invariant forall j :: 0 <= j < i ==> !Raises(prefixes[j])
      invariant Collected(result, prefixes[..i], filter)
      invariant Described(result, listed, filter.layer)
    {
      assert prefixes[..i + 1] == prefixes[..i] + [prefixes[i]];
      var info := ParsePartitionPrefix(prefixes[i]);
      if info.Some? {
        var partDate := DateOf(info.value);
        if partDate.Err? {
          assert Raises(prefixes[i]) && Discovered(objects, filter, prefixes[i]);
          return Err(InvalidDate);
        }
        if InRange(filter, partDate.value) {
          var counted := info.value.(fileCount := FileCount(listed, filter.layer, prefixes[i]));
          CollectNext(result, prefixes[..i], counted, filter);
          DescribeNext(result, listed, filter.layer, info.value);
          result := result + [counted];
        }
      }
    }
    assert prefixes[..|prefixes|] == prefixes;
    r := Ok(result);
  }

  lemma AddPrefix(infos: seq<PartitionInfo>, info: PartitionInfo)
    ensures forall pp :: HasPrefix(infos + [info], pp) <==> HasPrefix(infos, pp) || pp == info.prefix
  {
    forall pp
      ensures HasPrefix(infos + [info], pp) <==> HasPrefix(infos, pp) || pp == info.prefix
    {
      var all := infos + [info];
      assert all[|infos|] == info;
      if HasPrefix(infos, pp) {
        var i :| 0 <= i < |infos| && infos[i].prefix == pp;
        assert all[i].prefix == pp;
      }
    }
  }

  /** What a scan is meant to read. */
  ghost predicate Selected(filter: Filter, k: string) {
    && EndsWith(k, EXTENSION)
    && |Split(k, '/')| >= 6
    && ScanPrefix(filter) <= k
    && Admits(filter, Directory(Split(k, '/')[..5]))
  }

  ghost predicate PlainFilter(filter: Filter) {
    Free(filter.layer, '/') && (filter.source.Some? ==> Free(filter.source.value, '/'))
  }

  /** What discovery returns, for any filter: a parquet key whose own directory is that of some
      listed key and is admitted. */
  ghost predicate Chosen(objects: seq<string>, filter: Filter, k: string) {
    && EndsWith(k, EXTENSION)
    && |Split(k, '/')| >= 6
    && Discovered(objects, filter, Directory(Split(k, '/')[..5]))
    && Admits(filter, Directory(Split(k, '/')[..5]))
  }

  /** A key lies under a discovered directory exactly when that is the key's own directory. */
  lemma UnderPartition(k0: string, k: string)
    requires PartitionOf(k0).Some?
    ensures PartitionOf(k0).value <= k <==> |Split(k, '/')| >= 6 && PartitionOf(k) == PartitionOf(k0)
  {
    var ps := Split(k0, '/')[..5];
    SplitPartsFree(k0, '/');
    SplitPartsFree(k, '/');
    DirectoryPrefix(ps, k);
    if |Split(k, '/')| >= 6 {
      var qs := Split(k, '/')[..5];
      if Directory(qs) == Directory(ps) {
        DirectoryInjective(qs, ps);
      }
    }
  }

  /** Keys of one directory begin with the same components. */
  lemma SameHeads(k0: string, k: string)
    requires PartitionOf(k0).Some? && PartitionOf(k) == PartitionOf(k0)
    ensures Split(k, '/')[..5] == Split(k0, '/')[..5]
  {
    SplitPartsFree(k0, '/');
    SplitPartsFree(k, '/');
    DirectoryInjective(Split(k, '/')[..5], Split(k0, '/')[..5]);
  }

  lemma ScanPrefixOfDirectory(filter: Filter, k0: string, k: string)
    requires PlainFilter(filter) && PartitionOf(k0).Some? && PartitionOf(k) == PartitionOf(k0)
    requires ScanPrefix(filter) <= k0
    ensures ScanPrefix(filter) <= k
  {
    SameHeads(k0, k);
    var heads := if filter.source.Some? then [filter.layer, SourcePart(filter.source.value)] else [filter.layer];
    DirectoryPrefix(heads, k0);
    DirectoryPrefix(heads, k);
    assert Split(k, '/')[..|heads|] == Split(k, '/')[..5][..|heads|] == Split(k0, '/')[..|heads|];
  }

  lemma Witness(objects: seq<string>, filter: Filter, k: string) returns (k0: string)
    requires Chosen(objects, filter, k)
    ensures k0 in objects && ScanPrefix(filter) <= k0 && PartitionOf(k0).Some? && PartitionOf(k) == PartitionOf(k0)
  {
    var pp := Directory(Split(k, '/')[..5]);
    assert PartitionOf(k) == Some(pp);
    k0 :| k0 in objects && ScanPrefix(filter) <= k0 && PartitionOf(k0) == Some(pp);
  }

  /** With plain names the listing's detour is invisible: a key is returned exactly when it meets
      the filter itself. */
  lemma ChosenIffSelected(objects: seq<string>, filter: Filter, k: string)
    requires PlainFilter(filter) && k in objects
    ensures Chosen(objects, filter, k) <==> Selected(filter, k)
  {
    if Chosen(objects, filter, k) {
      var k0 := Witness(objects, filter, k);
      ScanPrefixOfDirectory(filter, k0, k);
    }
  }

  method ParquetFiles(objects: seq<string>, prefix: string) returns (files: seq<string>)
    requires Distinct(objects)
    ensures Distinct(files)
    ensures forall k :: k in files <==> k in objects && prefix <= k && EndsWith(k, EXTENSION)
  {
    var listed := ListObjects(objects, prefix);
    files := [];
    for i := 0 to |listed|
      invariant Distinct(files)
      invariant forall k :: k in files <==> k in listed[..i] && EndsWith(k, EXTENSION)
    {
      assert listed[..i + 1] == listed[..i] + [listed[i]];
      assert listed[i] !in listed[..i];
      if EndsWith(listed[i], EXTENSION) {
        files := files + [listed[i]];
      }
    }
    assert listed[..|listed|] == listed;
  }

  /** Discovery returns each key of the bucket at most once and exactly the chosen ones; it
      raises exactly when it meets a partition-shaped directory without a calendar date. */
  method DiscoverFiles(objects: seq<string>, filter: Filter) returns (r: Result<seq<string>, ScanError>)
    requires Distinct(objects)
    ensures r.Err? <==> exists pp :: Discovered(objects, filter, pp) && Raises(pp)
    ensures r.Ok? ==> Distinct(r.value) && forall k :: k in r.value <==> k in objects && Chosen(objects, filter, k)
  {
    var listed := ListPartitions(objects, filter);
    if listed.Err? {
      return Err(listed.error);
    }
    var partitions := listed.value;
    var files: seq<string> := [];
    for i := 0 to |partitions|
      invariant Gathered(objects, partitions, i, files)
    {
      var found := ParquetFiles(objects, partitions[i].prefix);
      GatherNext(objects, filter, partitions, i, files, found);
      files := files + found;
    }
    FilesAreChosen(objects, filter, partitions, files);
    r := Ok(files);
  }

  ghost predicate FileOfSome(objects: seq<string>, infos: seq<PartitionInfo>, k: string) {
    exists j :: 0 <= j < |infos| && k in objects && infos[j].prefix <= k && EndsWith(k, EXTENSION)
  }

  ghost predicate ListedFor(objects: seq<string>, filter: Filter, infos: seq<PartitionInfo>) {
    && DistinctPrefixes(infos)
    && forall pp :: HasPrefix(infos, pp) <==> Discovered(objects, filter, pp) && Admits(filter, pp)
  }

  lemma DirectoryOfListed(objects: seq<string>, filter: Filter, infos: seq<PartitionInfo>, j: nat, k: string)
    requires ListedFor(objects, filter, infos) && j < |infos|
    requires infos[j].prefix <= k
    ensures |Split(k, '/')| >= 6 && PartitionOf(k) == Some(infos[j].prefix)
    ensures Discovered(objects, filter, infos[j].prefix) && Admits(filter, infos[j].prefix)
  {
    assert HasPrefix(infos, infos[j].prefix);
    var k0 :| k0 in objects && ScanPrefix(filter) <= k0 && PartitionOf(k0) == Some(infos[j].prefix);
    UnderPartition(k0, k);
  }

  lemma PartitionsDisjoint(objects: seq<string>, filter: Filter, infos: seq<PartitionInfo>, i: nat,
                           files: seq<string>, found: seq<string>)
    requires ListedFor(objects, filter, infos) && i < |infos|
    requires forall k :: k in files <==> FileOfSome(objects, infos[..i], k)
    requires forall k :: k in found ==> infos[i].prefix <= k
    ensures forall k :: k in found ==> k !in files
  {
    forall k | k in found
      ensures k !in files
    {
      if k in files {
        var j :| 0 <= j < i && infos[..i][j].prefix <= k;
        DirectoryOfListed(objects, filter, infos, j, k);
        DirectoryOfListed(objects, filter, infos, i, k);
        assert false;
      }
    }
  }

  lemma ChosenIffListed(objects: seq<string>, filter: Filter, infos: seq<PartitionInfo>, k: string)
    requires ListedFor(objects, filter, infos)
    ensures FileOfSome(objects, infos, k) <==> k in objects && Chosen(objects, filter, k)
  {
    if FileOfSome(objects, infos, k) {
      var j :| 0 <= j < |infos| && k in objects && infos[j].prefix <= k && EndsWith(k, EXTENSION);
      DirectoryOfListed(objects, filter, infos, j, k);
    }
    if k in objects && Chosen(objects, filter, k) {
      var pp := Directory(Split(k, '/')[..5]);
      assert HasPrefix(infos, pp);
      var j :| 0 <= j < |infos| && infos[j].prefix == pp;
      UnderPartition(k, k);
    }
  }

  /** `files` holds what the first `i` partitions contribute. */
  ghost predicate Gathered(objects: seq<string>, infos: seq<PartitionInfo>, i: nat, files: seq<string>)
    requires i <= |infos|
  {
    Distinct(files) && forall k :: k in files <==> FileOfSome(objects, infos[..i], k)
  }

  lemma GatherNext(objects: seq<string>, filter: Filter, infos: seq<PartitionInfo>, i: nat,
                   files: seq<string>, found: seq<string>)
    requires ListedFor(objects, filter, infos) && i < |infos| && Gathered(objects, infos, i, files)
    requires Distinct(found)
    requires forall k :: k in found <==> k in objects && infos[i].prefix <= k && EndsWith(k, EXTENSION)
    ensures Gathered(objects, infos, i + 1, files + found)
  {
    PartitionsDisjoint(objects, filter, infos, i, files, found);
    DistinctConcat(files, found);
    forall k
      ensures FileOfSome(objects, infos[..i + 1], k) <==> FileOfSome(objects, infos[..i], k) || k in found
    {
      FileOfNext(objects, infos, i, k);
    }
  }

  lemma FileOfNext(objects: seq<string>, infos: seq<PartitionInfo>, i: nat, k: string)
    requires i < |infos|
    ensures FileOfSome(objects, infos[..i + 1], k) <==>
      FileOfSome(objects, infos[..i], k) || (k in objects && infos[i].prefix <= k && EndsWith(k, EXTENSION))
  {
    var more := infos[..i + 1];
    assert more == infos[..i] + [infos[i]] && more[i] == infos[i];
    if FileOfSome(objects, infos[..i], k) {
      var j :| 0 <= j < i && k in objects && infos[..i][j].prefix <= k && EndsWith(k, EXTENSION);
      assert more[j] == infos[..i][j];
    }
  }

  lemma FilesAreChosen(objects: seq<string>, filter: Filter, infos: seq<PartitionInfo>, files: seq<string>)
    requires ListedFor(objects, filter, infos) && Gathered(objects, infos, |infos|, files)
    ensures forall k :: k in files <==> k in objects && Chosen(objects, filter, k)
  {
    assert infos[..|infos|] == infos;
    forall k
      ensures k in files <==> k in objects && Chosen(objects, filter, k)
    {
      ChosenIffListed(objects, filter, infos, k);
    }
  }

  // ---------------------------------------------------------------- the lake's own keys

  lemma {:induction false} DirectorySnoc(ps: seq<string>, last: string)
    ensures Directory(ps + [last]) == Directory(ps) + last + "/"
  {
    if ps == [] {
      assert ps + [last] == [last];
      assert Directory([last]) == last + "/" + Directory([]);
    } else {
      assert (ps + [last])[1..] == ps[1..] + [last];
      DirectorySnoc(ps[1..], last);
    }
  }

  /** The prefix parser inverts the directory part of the key builder. */
  lemma ParseInvertsBuild(layer: string, source: string, d: Date)
    requires Free(layer, '/') && Free(source, '/') && ValidDate(d)
    ensures var pp := Directory(PartitionParts(layer, source, d));
            ParsePartitionPrefix(pp) == Some(PartitionInfo(layer, source, d.year, d.month, d.day, 0, pp))
  {
    var ps := PartitionParts(layer, source, d);
    PartsFree(layer, source, d);
    var body := Directory(ps[..4]) + ps[4];
    assert ps == ps[..4] + [ps[4]];
    DirectorySnoc(ps[..4], ps[4]);
    assert Directory(ps) == body + "/";
    assert Directory(ps)[..|Directory(ps)| - 1] == body;
    assert IsDigit(body[|body| - 1]) by {
      assert body[|body| - 1] == ps[4][|ps[4]| - 1];
    }
    assert RStripSlash(Directory(ps)) == body;
    DirectoryFiles(ps[..4], ps[4]);
    assert Split(body, '/') == ps;
    FieldsParse(layer, source, d);
  }

  lemma FieldsParse(layer: string, source: string, d: Date)
    requires ValidDate(d)
    ensures var ps := PartitionParts(layer, source, d);
            && "source=" <= ps[1] && ps[1][7..] == source
            && "year=" <= ps[2] && ParseInt(ps[2][5..]) == Some(d.year)
            && "month=" <= ps[3] && ParseInt(ps[3][6..]) == Some(d.month)
            && "day=" <= ps[4] && ParseInt(ps[4][4..]) == Some(d.day)
  {
    var ps := PartitionParts(layer, source, d);
    assert ps[2][5..] == Decimal(d.year) && ps[3][6..] == TwoDigits(d.month) && ps[4][4..] == TwoDigits(d.day);
    ParseDecimal(d.year);
    ParseTwoDigits(d.month);
    ParseTwoDigits(d.day);
    ParseIntOfDigits(Decimal(d.year));
    ParseIntOfDigits(TwoDigits(d.month));
    ParseIntOfDigits(TwoDigits(d.day));
  }

  /** Pruning preserves meaning: for a file in a partition directory, whether written by the
      key builder or by compaction beside it, selection is equality of layer and source and
      membership of the collection date in the range. */
  lemma PruningIsExact(filter: Filter, layer: string, source: string, d: Date, file: string)
    requires PlainFilter(filter) && Free(layer, '/') && Free(source, '/') && Free(file, '/') && ValidDate(d)
    ensures var k := Directory(PartitionParts(layer, source, d)) + file;
            && Selected(filter, k) <==>
                 && EndsWith(k, EXTENSION)
                 && filter.layer == layer
                 && (filter.source.Some? ==> filter.source.value == source)
                 && InRange(filter, d)
    ensures !Raises(Directory(PartitionParts(layer, source, d)))
  {
    var ps := PartitionParts(layer, source, d);
    var k := Directory(ps) + file;
    PartsFree(layer, source, d);
    DirectoryFiles(ps, file);
    assert Split(k, '/')[..5] == ps;
    ParseInvertsBuild(layer, source, d);
    ScanPrefixMatches(filter, layer, source, d, file);
  }

  lemma ScanPrefixMatches(filter: Filter, layer: string, source: string, d: Date, file: string)
    requires PlainFilter(filter) && Free(layer, '/') && Free(source, '/') && Free(file, '/')
    ensures ScanPrefix(filter) <= Directory(PartitionParts(layer, source, d)) + file
       <==> filter.layer == layer && (filter.source.Some? ==> filter.source.value == source)
  {
    var ps := PartitionParts(layer, source, d);
    var k := Directory(ps) + file;
    PartsFree(layer, source, d);
    DirectoryFiles(ps, file);
    var parts := ps + [file];
    if filter.source.Some? {
      var heads := [filter.layer, SourcePart(filter.source.value)];
      DirectoryPrefix(heads, k);
      assert parts[..2] == [parts[0], parts[1]] == [layer, SourcePart(source)];
      if SourcePart(filter.source.value) == SourcePart(source) {
        assert SourcePart(source)[7..] == source;
        assert SourcePart(filter.source.value)[7..] == filter.source.value;
      }
      assert heads == [layer, SourcePart(source)] <==> heads[0] == layer && heads[1] == SourcePart(source);
    } else {
      DirectoryPrefix([filter.layer], k);
      assert parts[..1] == [layer];
      assert [filter.layer] == [layer] <==> [filter.layer][0] == [layer][0];
    }
  }

  /** The file of an event is selected exactly when the filter names its layer and its
      sanitised source and covers its collection date. */
  lemma EventSelected(filter: Filter, e: Event, layer: LakeLayer)
    requires PlainFilter(filter) && ValidDate(e.collectedAt.date)
    ensures Selected(filter, BuildPartitionKey(e, layer)) <==>
              && filter.layer == LayerName(layer)
              && (filter.source.Some? ==> filter.source.value == EventSource(e))
              && InRange(filter, e.collectedAt.date)
  {
    EventPartsFree(e, layer);
    var k := BuildPartitionKey(e, layer);
    assert EndsWith(k, EXTENSION) by { assert k[|k| - 8..] == EXTENSION; }
    PruningIsExact(filter, LayerName(layer), EventSource(e), e.collectedAt.date, FileName(e));
  }

  /** Filtering by the event's own source name finds its file exactly when that name needs no
      sanitising. */
  lemma RawSourceFinds(objects: seq<string>, e: Event, layer: LakeLayer)
    requires ValidDate(e.collectedAt.date) && BuildPartitionKey(e, layer) in objects
    ensures Chosen(objects, Filter(LayerName(layer), Some(e.source), None, None), BuildPartitionKey(e, layer))
       <==> SafeSegment(e.source)
  {
    var filter, k := Filter(LayerName(layer), Some(e.source), None, None), BuildPartitionKey(e, layer);
    SanitizeFixesExactlySafe(e.source, "_");
    if Free(e.source, '/') {
      EventPartsFree(e, layer);
      EventSelected(filter, e, layer);
      ChosenIffSelected(objects, filter, k);
    } else {
      SafeSegmentHarmless(EventSource(e));
      if Chosen(objects, filter, k) {
        var k0 := Witness(objects, filter, k);
        SameHeads(k0, k);
        KeyParts(e, layer);
        SlashedSourceMisses(e, layer, k0);
      }
    }
  }

  lemma KeyParts(e: Event, layer: LakeLayer)
    ensures |Split(BuildPartitionKey(e, layer), '/')| == 6
    ensures Split(BuildPartitionKey(e, layer), '/')[..5]
         == PartitionParts(LayerName(layer), EventSource(e), e.collectedAt.date)
  {
    EventPartsFree(e, layer);
    PartsFree(LayerName(layer), EventSource(e), e.collectedAt.date);
    DirectoryFiles(PartitionParts(LayerName(layer), EventSource(e), e.collectedAt.date), FileName(e));
  }

  lemma {:induction false} FirstSlash(s: string) returns (a: string, b: string)
    requires '/' in s
    ensures s == a + "/" + b && Free(a, '/')
  {
    if s[0] == '/' {
      a, b := "", s[1..];
    } else {
      a, b := FirstSlash(s[1..]);
      assert s == [s[0]] + s[1..];
      a := [s[0]] + a;
    }
  }

  /** No key in the directory of an event whose source holds a slash starts with the raw source. */
  lemma SlashedSourceMisses(e: Event, layer: LakeLayer, k0: string)
    requires '/' in e.source && |Split(k0, '/')| >= 5
    requires Split(k0, '/')[..5] == PartitionParts(LayerName(layer), EventSource(e), e.collectedAt.date)
    ensures !(ScanPrefix(Filter(LayerName(layer), Some(e.source), None, None)) <= k0)
  {
    var a, b := FirstSlash(e.source);
    EventPartsFree(e, layer);
    SanitizeFixesExactlySafe(e.source, "_");
    if a == EventSource(e) {
      SanitizedPathDiffers(a, b);
    }
    assert Split(k0, '/')[1] == Split(k0, '/')[..5][1] == SourcePart(EventSource(e));
    assert SourcePart(a)[7..] == a && SourcePart(EventSource(e))[7..] == EventSource(e);
    SlashedPrefix(LayerName(layer), a, b, k0);
  }

  /** A key under a source name with a slash has the name's first part as its source. */
  lemma SlashedPrefix(layer: string, a: string, b: string, k: string)
    requires Free(layer, '/') && Free(a, '/')
    requires |Split(k, '/')| >= 2 && Split(k, '/')[1] != SourcePart(a)
    ensures !(ScanPrefix(Filter(layer, Some(a + "/" + b), None, None)) <= k)
  {
    var heads := [layer, SourcePart(a)];
    assert Free(SourcePart(a), '/');
    DirectoryPrefix(heads, k);
    TwoHeads(layer, a);
    TwoHeads(layer, a + "/" + b);
    assert ScanPrefix(Filter(layer, Some(a + "/" + b), None, None)) == Directory(heads) + b + "/";
    assert Split(k, '/')[..2][1] != heads[1];
  }

  lemma TwoHeads(layer: string, source: string)
    ensures Directory([layer, SourcePart(source)]) == layer + "/" + SourcePart(source) + "/"
  {
    assert [layer, SourcePart(source)][1..] == [SourcePart(source)];
    assert Directory([SourcePart(source)]) == SourcePart(source) + "/" + Directory([]);
  }

  /** A bucket holding only lake files: discovery never raises. */
  ghost predicate LakeFile(k: string, layer: string, source: string, d: Date, file: string) {
    && Free(layer, '/') && Free(source, '/') && Free(file, '/') && ValidDate(d)
    && k == Directory(PartitionParts(layer, source, d)) + file
  }

  ghost predicate LakeBucket(objects: seq<string>) {
    forall k :: k in objects ==> exists l, s, d, f :: LakeFile(k, l, s, d, f)
  }

  lemma LakeNeverRaises(objects: seq<string>, filter: Filter)
    requires LakeBucket(objects)
    ensures !exists pp :: Discovered(objects, filter, pp) && Raises(pp)
  {
    forall pp | Discovered(objects, filter, pp)
      ensures !Raises(pp)
    {
      var k :| k in objects && ScanPrefix(filter) <= k && PartitionOf(k) == Some(pp);
      var l, s, d, f :| LakeFile(k, l, s, d, f);
      PartsFree(l, s, d);
      DirectoryFiles(PartitionParts(l, s, d), f);
      assert Split(k, '/')[..5] == PartitionParts(l, s, d);
      ParseInvertsBuild(l, s, d);
    }
  }
}
