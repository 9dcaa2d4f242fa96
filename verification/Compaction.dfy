/** The compactor of one lake partition: as a step machine over the object store, in which writers
    and crashes may come between any two actions, and as the class that takes those steps. */
module Compaction {
  import opened Common
  import opened Text

  datatype Row = Row(eventId: string, payload: string)

  type File = seq<Row>
  type Objects = map<string, File>

  const PARQUET := ".parquet"
  const COMPACTED := "compacted-"

  // ---------------------------------------------------------------- keys

  /** `key.rsplit("/", 1)[-1]` */
  function FileName(key: string): string {
    if '/' !in key then key else FileName(key[1..])
  }

  /** `key.rsplit("/", 1)[0] + "/"` */
  function Parent(key: string): string
    requires '/' in key
  {
    if '/' in key[1..] then [key[0]] + Parent(key[1..]) else [key[0]]
  }

  /** A file the compactor may merge: a parquet file that is not itself a compacted one. */
  predicate IsSource(key: string) {
    EndsWith(key, PARQUET) && !(COMPACTED <= FileName(key))
  }

  function CompactedKey(prefix: string, suffix: string): string {
    prefix + COMPACTED + suffix + PARQUET
  }

  /** A partition prefix ends with its slash. */
  ghost predicate IsPrefix(prefix: string) {
    prefix != "" && prefix[|prefix| - 1] == '/'
  }

  lemma {:induction false} FileNameUnder(directory: string, name: string)
    requires Free(name, '/')
    ensures FileName(directory + "/" + name) == name
  {
    var key := directory + "/" + name;
    assert key[|directory|] == '/';
    if directory == "" {
      assert key[1..] == name;
    } else {
      assert key[1..] == directory[1..] + "/" + name;
      FileNameUnder(directory[1..], name);
    }
  }

  /** A key is its directory, which ends with the last slash, and a name without one. */
  lemma {:induction false} KeyIsParentAndName(key: string)
    ensures Free(FileName(key), '/')
    ensures '/' in key ==> Parent(key) + FileName(key) == key && IsPrefix(Parent(key))
    ensures '/' !in key ==> FileName(key) == key
  {
    if '/' in key {
      KeyIsParentAndName(key[1..]);
      assert key == [key[0]] + key[1..];
    }
  }

  /** The file lies directly in the directory and may be merged. */
  ghost predicate MergeableIn(key: string, p: string) {
    IsPrefix(p) && p <= key
    && Free(key[|p|..], '/') && EndsWith(key[|p|..], ".parquet") && !("compacted-" <= key[|p|..])
  }

  lemma CutNotAfter(a: string, x: string, b: string, y: string)
    requires a + x == b + y && Free(x, '/') && IsPrefix(b)
    ensures |b| <= |a|
  {
    var s := a + x;
    assert s[|b| - 1] == (b + y)[|b| - 1] == '/';
    assert forall i :: |a| <= i < |s| ==> s[i] in x;
  }

  lemma SameCut(a: string, x: string, b: string, y: string)
    requires a + x == b + y && Free(x, '/') && Free(y, '/') && IsPrefix(a) && IsPrefix(b)
    ensures a == b && x == y
  {
    CutNotAfter(a, x, b, y);
    CutNotAfter(b, y, a, x);
    assert a == (a + x)[..|a|] && b == (b + y)[..|b|];
    assert x == (a + x)[|a|..] && y == (b + y)[|b|..];
  }

  lemma MergeableInIff(key: string, p: string)
    ensures MergeableIn(key, p) <==> IsSource(key) && '/' in key && Parent(key) == p
  {
    KeyIsParentAndName(key);
    if MergeableIn(key, p) {
      assert key == p + key[|p|..] && key[|p| - 1] == '/';
      SameCut(p, key[|p|..], Parent(key), FileName(key));
      assert key[|key| - 8..] == key[|p|..][|key[|p|..]| - 8..];
    }
    if IsSource(key) && '/' in key && Parent(key) == p {
      assert key[|p|..] == FileName(key);
      NameHoldsExtension(key, p);
    }
  }

  lemma NameHoldsExtension(key: string, p: string)
    requires IsPrefix(p) && p <= key && EndsWith(key, PARQUET)
    ensures EndsWith(key[|p|..], ".parquet")
  {
    var n := |key|;
    assert forall i :: n - 8 <= i < n ==> key[i] == key[n - 8..][i - (n - 8)];
    assert key[|p| - 1] == '/';
    assert key[|p|..][n - |p| - 8..] == key[n - 8..];
  }

  /** The files of a listing that lie directly in `p` and may be merged. */
  ghost function MergeableKeys(listing: seq<string>, p: string): set<string> {
    set k | k in listing && MergeableIn(k, p)
  }

  lemma {:induction false} FilesInAreMergeable(listing: seq<string>, p: string)
    requires Distinct(listing)
    ensures Distinct(FilesIn(listing, p)) && (forall k :: k in FilesIn(listing, p) <==> k in MergeableKeys(listing, p))
    ensures |FilesIn(listing, p)| == |MergeableKeys(listing, p)|
  {
    if listing == [] {
      assert MergeableKeys(listing, p) == {};
    } else {
      var init, k := listing[..|listing| - 1], listing[|listing| - 1];
      assert listing == init + [k];
      DistinctInit(listing);
      FilesInAreMergeable(init, p);
      MergeableInIff(k, p);
      if MergeableIn(k, p) {
        DistinctConcat(FilesIn(init, p), [k]);
        assert MergeableKeys(listing, p) == MergeableKeys(init, p) + {k};
      } else {
        assert MergeableKeys(listing, p) == MergeableKeys(init, p);
      }
    }
  }

  /** A compacted file is never picked up as a source again. */
  lemma CompactedIsNotSource(prefix: string, suffix: string)
    requires IsPrefix(prefix) && Free(suffix, '/')
    ensures !IsSource(CompactedKey(prefix, suffix)) && prefix <= CompactedKey(prefix, suffix)
  {
    var directory := prefix[..|prefix| - 1];
    var name := COMPACTED + suffix + PARQUET;
    assert CompactedKey(prefix, suffix) == directory + "/" + name;
    FileNameUnder(directory, name);
    assert COMPACTED <= name;
  }

  /** The parquet keys of a listing that are not compacted files. */
  function Sources(listing: seq<string>): (keys: seq<string>)
    ensures forall k :: k in keys <==> k in listing && IsSource(k)
    ensures Distinct(listing) ==> Distinct(keys)
  {
    if listing == [] then []
    else
      var init, last := listing[..|listing| - 1], listing[|listing| - 1];
      assert listing == init + [last];
      var before := Sources(init);
      var here := if IsSource(last) then [last] else [];
      assert Distinct(listing) ==> Distinct(before + here) by {
        if Distinct(listing) { DistinctInit(listing); DistinctConcat(before, here); }
      }
      before + here
  }

  /** The keys of a listing that lie directly in partition `p` and may be merged. */
  function FilesIn(listing: seq<string>, p: string): seq<string> {
    if listing == [] then []
    else
      var k := listing[|listing| - 1];
      FilesIn(listing[..|listing| - 1], p) + (if IsSource(k) && '/' in k && Parent(k) == p then [k] else [])
  }

  /** `list_objects` may return the keys under a prefix in any order. */
  ghost predicate IsListing(objects: Objects, prefix: string, listing: seq<string>) {
    Distinct(listing) && forall k :: k in listing <==> k in objects && prefix <= k
  }

  // ---------------------------------------------------------------- the step machine

  datatype Pc =
    | Idle
    | Reading(keys: seq<string>, next: nat, combined: File)
    | Written(keys: seq<string>, ckey: string, combined: File)
    | Deleting(keys: seq<string>, next: nat, ckey: string)
    | Completed

  datatype Machine = Machine(objects: Objects, pc: Pc)

  datatype Job = Job(prefix: string, minFiles: nat)

  /** One atomic action. `Put` says how many of the combined rows really reach the store; `Abort`
      is an exception or a crash between two actions, and `Write` is a writer putting one row
      under its own key at any time. */
  datatype Step =
    | Begin(listing: seq<string>)
    | Read
    | Put(suffix: string, stored: nat)
    | Validate
    | Delete
    | Abort
    | Write(row: Row)

  /** The object key a writer uses for a row. */
  type KeyOf = Row -> string

  function Truncate(f: File, n: nat): File {
    if n <= |f| then f[..n] else f
  }

  function Do(m: Machine, s: Step, job: Job, keyOf: KeyOf): Machine {
    match s
    case Write(row) => m.(objects := m.objects[keyOf(row) := [row]])
    case Abort => m.(pc := Idle)
    case Begin(listing) =>
      if m.pc != Idle && m.pc != Completed then m
      else
        var keys := Sources(listing);
        if |keys| < job.minFiles || keys == [] then m.(pc := Idle) else m.(pc := Reading(keys, 0, []))
    case Read =>
      if !(m.pc.Reading? && m.pc.next < |m.pc.keys|) then m
      else if m.pc.keys[m.pc.next] !in m.objects then m.(pc := Idle)
      else m.(pc := m.pc.(next := m.pc.next + 1, combined := m.pc.combined + m.objects[m.pc.keys[m.pc.next]]))
    case Put(suffix, stored) =>
      if !(m.pc.Reading? && m.pc.next == |m.pc.keys|) then m
      else
        var ckey := CompactedKey(job.prefix, suffix);
        Machine(m.objects[ckey := Truncate(m.pc.combined, stored)], Written(m.pc.keys, ckey, m.pc.combined))
    case Validate =>
      if !m.pc.Written? then m
      else if m.pc.ckey !in m.objects then m.(pc := Idle)
      else if |m.objects[m.pc.ckey]| == |m.pc.combined| then m.(pc := Deleting(m.pc.keys, 0, m.pc.ckey))
      else Machine(m.objects - {m.pc.ckey}, Idle)
    case Delete =>
      if !m.pc.Deleting? then m
      else if m.pc.next < |m.pc.keys|
        then Machine(m.objects - {m.pc.keys[m.pc.next]}, m.pc.(next := m.pc.next + 1))
      else m.(pc := Completed)
  }

  function Run(m: Machine, steps: seq<Step>, job: Job, keyOf: KeyOf): Machine {
    if steps == [] then m
    else Do(Run(m, steps[..|steps| - 1], job, keyOf), steps[|steps| - 1], job, keyOf)
  }

  /** What a step may assume: a listing is complete, the random suffix gives a new key, and a writer
      uses a key that is not a compacted one. */
  ghost predicate Legal(m: Machine, s: Step, job: Job, keyOf: KeyOf) {
    match s
    case Begin(listing) => IsListing(m.objects, job.prefix, listing)
    case Put(suffix, _) => Free(suffix, '/') && CompactedKey(job.prefix, suffix) !in m.objects
    case Write(row) => IsSource(keyOf(row))
    case _ => true
  }

  ghost predicate LegalRun(m: Machine, steps: seq<Step>, job: Job, keyOf: KeyOf) {
    steps == [] ||
    (var init := steps[..|steps| - 1];
     LegalRun(m, init, job, keyOf) && Legal(Run(m, init, job, keyOf), steps[|steps| - 1], job, keyOf))
  }

  lemma LegalSnoc(m: Machine, steps: seq<Step>, s: Step, job: Job, keyOf: KeyOf)
    requires LegalRun(m, steps, job, keyOf) && Legal(Run(m, steps, job, keyOf), s, job, keyOf)
    ensures LegalRun(m, steps + [s], job, keyOf)
    ensures Run(m, steps + [s], job, keyOf) == Do(Run(m, steps, job, keyOf), s, job, keyOf)
  {
    assert (steps + [s])[..|steps|] == steps;
  }

  // ---------------------------------------------------------------- one call of compact_partition

  /** Where, if anywhere, a storage call raises; `took` says whether it took effect first.
      `AtRead(|keys|)` is a failure to combine the frames. */
  datatype Fault = NoFault | AtList | AtRead(i: nat) | AtPut(took: bool) | AtValidate | AtDelete(j: nat, took: bool)

  datatype CompactionResult = CompactionResult(
    sourceFiles: nat, compacted: bool, recordsBefore: nat, recordsAfter: nat, errors: nat)

  datatype Outcome = Outcome(objects: Objects, result: CompactionResult)

  function Combined(objects: Objects, keys: seq<string>): File
    requires forall k :: k in keys ==> k in objects
  {
    if keys == [] then []
    else Combined(objects, keys[..|keys| - 1]) + objects[keys[|keys| - 1]]
  }

  function Without(objects: Objects, keys: seq<string>): Objects {
    map k | k in objects && k !in keys :: objects[k]
  }

  function Deleted(n: nat, fault: Fault): nat {
    if fault.AtDelete? && fault.j < n then (if fault.took then fault.j + 1 else fault.j) else n
  }

  function Discard(objects: Objects, ckey: string, torn: File, partial: CompactionResult, fault: Fault): Outcome {
    if fault == AtDelete(0, false) then Outcome(objects[ckey := torn], partial.(errors := 2))
    else if fault == AtDelete(0, true) then Outcome(objects - {ckey}, partial.(errors := 2))
    else Outcome(objects - {ckey}, partial.(errors := 1))
  }

  function Swap(objects: Objects, prefix: string, keys: seq<string>, combined: File, suffix: string, stored: nat,
                fault: Fault): Outcome
  {
    var ckey, torn := CompactedKey(prefix, suffix), Truncate(combined, stored);
    var read := CompactionResult(|keys|, false, |combined|, 0, 0);
    if fault == AtPut(false) then Outcome(objects, read.(errors := 1))
    else if fault == AtPut(true) || fault == AtValidate then Outcome(objects[ckey := torn], read.(errors := 1))
    else
      var validated := read.(recordsAfter := |torn|);
      if |torn| != |combined| then Discard(objects, ckey, torn, validated, fault)
      else
        var gone := Without(objects[ckey := combined], keys[..Deleted(|keys|, fault)]);
        if fault.AtDelete? && fault.j < |keys| then Outcome(gone, validated.(errors := 1))
        else Outcome(gone, validated.(compacted := true))
  }

  /** What one call does to the store, for every place where it may fail. */
  function Compact(objects: Objects, job: Job, keys: seq<string>, suffix: string, stored: nat, fault: Fault): Outcome
    requires forall k :: k in keys ==> k in objects
  {
    var none := CompactionResult(0, false, 0, 0, 0);
    if fault == AtList then Outcome(objects, none.(errors := 1))
    else if |keys| < job.minFiles || keys == [] then Outcome(objects, none)
    else if fault.AtRead? && fault.i <= |keys| then Outcome(objects, CompactionResult(|keys|, false, 0, 0, 1))
    else Swap(objects, job.prefix, keys, Combined(objects, keys), suffix, stored, fault)
  }

  class MinIOStorage {
    var objects: Objects

    method ListObjects(prefix: string) returns (listing: seq<string>)
      ensures IsListing(objects, prefix, listing)
    {
      listing := [];
      var rest := set k | k in objects && prefix <= k;
      while rest != {}
        invariant forall k :: k in objects && prefix <= k <==> k in rest || k in listing
        invariant Distinct(listing) && forall k :: k in listing ==> k !in rest
        decreases rest
      {
        var k :| k in rest;
        DistinctConcat(listing, [k]);
        listing, rest := listing + [k], rest - {k};
      }
    }

    method PutObject(key: string, file: File)
      modifies this
      ensures objects == old(objects)[key := file]
    {
      objects := objects[key := file];
    }

    method DeleteObject(key: string)
      modifies this
      ensures objects == old(objects) - {key}
    {
      objects := objects - {key};
    }
  }

  class ParquetCompactor {
    const storage: MinIOStorage
    const minFiles: nat

    constructor (storage: MinIOStorage, minFiles: nat)
      ensures this.storage == storage && this.minFiles == minFiles
    {
      this.storage, this.minFiles := storage, minFiles;
    }

    /** The partitions with enough files to compact, in order and each once, whatever order the
        listing comes in. */
    method DiscoverPartitions(prefix: string) returns (eligible: seq<string>, all: seq<string>)
      ensures IsListing(storage.objects, prefix, all)
      ensures forall p :: p in eligible <==> 0 < |FilesIn(all, p)| && minFiles <= |FilesIn(all, p)|
      ensures forall p :: p in eligible <==> 0 < |MergeableKeys(all, p)| && minFiles <= |MergeableKeys(all, p)|
      ensures Distinct(eligible) && Ordered(eligible)
    {
      all := storage.ListObjects(prefix);
      var files: map<string, nat> := map[];
      for i := 0 to |all|
        invariant forall p :: p in files <==> 0 < |FilesIn(all[..i], p)|
        invariant forall p :: p in files ==> files[p] == |FilesIn(all[..i], p)|
      {
        assert all[..i + 1][..i] == all[..i];
        if IsSource(all[i]) && '/' in all[i] {
          var p := Parent(all[i]);
          files := files[p := (if p in files then files[p] else 0) + 1];
        }
      }
      assert all[..|all|] == all;
      eligible := Eligible(files);
      forall p ensures |FilesIn(all, p)| == |MergeableKeys(all, p)| {
        FilesInAreMergeable(all, p);
      }
    }

    /** The prefixes whose count reaches the threshold, sorted. */
    method Eligible(files: map<string, nat>) returns (eligible: seq<string>)
      ensures forall p :: p in eligible <==> p in files && files[p] >= minFiles
      ensures Distinct(eligible) && Ordered(eligible)
    {
      var found: seq<string> := [];
      var rest := files.Keys;
      while rest != {}
        invariant rest <= files.Keys
        invariant forall p :: p in found <==> p in files && p !in rest && files[p] >= minFiles
        invariant Distinct(found)
        decreases rest
      {
        var p :| p in rest;
        if files[p] >= minFiles {
          DistinctConcat(found, [p]);
          found := found + [p];
        }
        rest := rest - {p};
      }
      SortedOrders(found);
      eligible := Sorted(found);
    }

    method CompactPartition(prefix: string, suffix: string, stored: nat, fault: Fault)
      returns (result: CompactionResult, listing: seq<string>)
      modifies storage
      ensures IsListing(old(storage.objects), prefix, listing)
      ensures Outcome(storage.objects, result)
           == Compact(old(storage.objects), Job(prefix, minFiles), Sources(listing), suffix, stored, fault)
    {
      listing := storage.ListObjects(prefix);
      result := CompactionResult(0, false, 0, 0, 0);
      if fault == AtList {
        result := result.(errors := 1);
        return;
      }
      var keys := Sources(listing);
      if |keys| < minFiles || keys == [] {
        return;
      }
      var frames, failed := ReadAll(keys, fault);
      if failed {
        result := CompactionResult(|keys|, false, 0, 0, 1);
        return;
      }
      result := WriteAndSwap(prefix, keys, frames, suffix, stored, fault);
    }

    method ReadAll(keys: seq<string>, fault: Fault) returns (combined: File, failed: bool)
      requires forall k :: k in keys ==> k in storage.objects
      ensures failed <==> fault.AtRead? && fault.i <= |keys|
      ensures !failed ==> combined == Combined(storage.objects, keys)
    {
      combined, failed := [], false;
      for i := 0 to |keys|
        invariant combined == Combined(storage.objects, keys[..i])
        invariant fault.AtRead? ==> i <= fault.i
      {
        if fault == AtRead(i) {
          return combined, true;
        }
        assert keys[..i + 1][..i] == keys[..i];
        combined := combined + storage.objects[keys[i]];
      }
      assert keys[..|keys|] == keys;
      failed := fault == AtRead(|keys|);
    }

    method WriteAndSwap(prefix: string, keys: seq<string>, combined: File, suffix: string, stored: nat, fault: Fault)
      returns (result: CompactionResult)
      modifies storage
      ensures Outcome(storage.objects, result)
           == Swap(old(storage.objects), prefix, keys, combined, suffix, stored, fault)
    {
      var ckey, torn := CompactedKey(prefix, suffix), Truncate(combined, stored);
      result := CompactionResult(|keys|, false, |combined|, 0, 0);
      if fault == AtPut(false) {
        return result.(errors := 1);
      }
      storage.PutObject(ckey, torn);
      if fault == AtPut(true) || fault == AtValidate {
        return result.(errors := 1);
      }
      result := result.(recordsAfter := |storage.objects[ckey]|);
      if result.recordsAfter != result.recordsBefore {
        result := result.(errors := 1);
        if fault != AtDelete(0, false) {
          storage.DeleteObject(ckey);
          assert storage.objects == old(storage.objects) - {ckey};
        }
        if fault.AtDelete? && fault.j == 0 {
          result := result.(errors := 2);
        }
        return;
      }
      assert torn == combined;
      var failed := DeleteAll(keys, fault);
      result := if failed then result.(errors := 1) else result.(compacted := true);
    }

    method DeleteAll(keys: seq<string>, fault: Fault) returns (failed: bool)
      modifies storage
      ensures failed <==> fault.AtDelete? && fault.j < |keys|
      ensures storage.objects == Without(old(storage.objects), keys[..Deleted(|keys|, fault)])
    {
      for j := 0 to |keys|
        invariant storage.objects == Without(old(storage.objects), keys[..j])
        invariant fault.AtDelete? ==> j <= fault.j
      {
        if fault != AtDelete(j, false) {
          storage.DeleteObject(keys[j]);
          assert keys[..j + 1] == keys[..j] + [keys[j]];
        }
        if fault.AtDelete? && fault.j == j {
          return true;
        }
      }
      failed := false;
    }
  }
}
