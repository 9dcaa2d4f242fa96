/** What compaction does to the rows of a partition while nobody writes to it. */
module CompactionConservation {
  import opened Common
  import opened Text
  import opened Compaction
  import opened CompactionSafety

  // ---------------------------------------------------------------- counting rows

  /** Every row of every object, with multiplicity. */
  ghost function Total(objects: Objects): multiset<Row>
    decreases |objects|
  {
    if objects == map[] then multiset{}
    else var k :| k in objects; multiset(objects[k]) + Total(objects - {k})
  }

  lemma {:induction false} TotalRemove(objects: Objects, k: string)
    requires k in objects
    ensures Total(objects) == multiset(objects[k]) + Total(objects - {k})
    decreases |objects|
  {
    var j :| j in objects && Total(objects) == multiset(objects[j]) + Total(objects - {j});
    if j != k {
      TotalRemove(objects - {j}, k);
      TotalRemove(objects - {k}, j);
      assert objects - {j} - {k} == objects - {k} - {j};
    }
  }

  lemma TotalPut(objects: Objects, k: string, f: File)
    requires k !in objects
    ensures Total(objects[k := f]) == Total(objects) + multiset(f)
  {
    TotalRemove(objects[k := f], k);
    assert objects[k := f] - {k} == objects;
  }

  /** Taking out `keys` takes out exactly what reading them combined. */
  lemma {:induction false} TotalWithout(objects: Objects, keys: seq<string>)
    requires Distinct(keys) && forall k :: k in keys ==> k in objects
    ensures Total(objects) == Total(Without(objects, keys)) + multiset(Combined(objects, keys))
  {
    if keys == [] {
      assert Without(objects, keys) == objects;
    } else {
      var init, last := keys[..|keys| - 1], keys[|keys| - 1];
      assert keys == init + [last];
      DistinctInit(keys);
      TotalWithout(objects, init);
      TotalRemove(Without(objects, init), last);
      assert Without(objects, init) - {last} == Without(objects, keys);
    }
  }

  /** The files a compactor may read. */
  function Plain(objects: Objects): Objects {
    map k | k in objects && IsSource(k) :: objects[k]
  }

  lemma CombinedPlain(objects: Objects, keys: seq<string>)
    requires Distinct(keys) && forall k :: k in keys ==> k in objects && IsSource(k)
    ensures multiset(Combined(objects, keys)) <= Total(Plain(objects))
  {
    TotalWithout(Plain(objects), keys);
    CombinedSame(objects, Plain(objects), keys);
  }

  lemma {:induction false} CombinedSame(a: Objects, b: Objects, keys: seq<string>)
    requires forall k :: k in keys ==> k in a && k in b && a[k] == b[k]
    ensures Combined(a, keys) == Combined(b, keys)
  {
    if keys != [] {
      CombinedSame(a, b, keys[..|keys| - 1]);
    }
  }

  lemma {:induction false} CombinedRows(objects: Objects, keys: seq<string>, row: Row)
    requires forall k :: k in keys ==> k in objects
    ensures row in Combined(objects, keys) <==> exists k :: k in keys && row in objects[k]
  {
    if keys != [] {
      var init, last := keys[..|keys| - 1], keys[|keys| - 1];
      assert keys == init + [last];
      CombinedRows(objects, init, row);
      assert row in Combined(objects, keys) <==> row in Combined(objects, init) || row in objects[last];
    }
  }

  lemma TotalSub(sub: Objects, objects: Objects)
    requires forall k :: k in sub ==> k in objects && objects[k] == sub[k]
    ensures Total(sub) <= Total(objects)
    decreases |objects|
  {
    if objects == map[] {
      assert sub == map[];
    } else {
      var k :| k in objects;
      TotalRemove(objects, k);
      if k in sub {
        TotalRemove(sub, k);
        TotalSub(sub - {k}, objects - {k});
      } else {
        TotalSub(sub, objects - {k});
      }
    }
  }

  // ---------------------------------------------------------------- the shape of an attempt

  ghost predicate Quiet(steps: seq<Step>) {
    forall i :: 0 <= i < |steps| ==> !steps[i].Write?
  }

  /** `keys` are all the sources of the partition. */
  ghost predicate Listed(base: Objects, prefix: string, keys: seq<string>) {
    Distinct(keys) && forall k :: k in keys <==> k in base && IsSource(k) && prefix <= k
  }

  ghost predicate NewKey(base: Objects, prefix: string, ckey: string) {
    ckey !in base && prefix <= ckey && !IsSource(ckey)
  }

  /** `base` is the store as the attempt found it. */
  ghost predicate Shape(m: Machine, base: Objects, job: Job) {
    match m.pc
    case Idle => m.objects == base
    case Reading(keys, next, combined) =>
      Listed(base, job.prefix, keys) && next <= |keys| && m.objects == base
      && combined == Combined(base, keys[..next])
    case Written(keys, ckey, combined) =>
      Listed(base, job.prefix, keys) && NewKey(base, job.prefix, ckey) && combined == Combined(base, keys)
      && ckey in m.objects && m.objects[ckey] <= combined && m.objects - {ckey} == base
    case Deleting(keys, next, ckey) =>
      Listed(base, job.prefix, keys) && NewKey(base, job.prefix, ckey) && next <= |keys|
      && m.objects == Without(base[ckey := Combined(base, keys)], keys[..next])
    case Completed =>
      m.objects == base && forall k :: k in base && job.prefix <= k ==> !IsSource(k)
  }

  /** The attempt a step leaves behind: itself, or a new one starting from the store as it is. */
  function NextBase(m: Machine, m': Machine, base: Objects): Objects {
    if m'.pc.Idle? || m'.pc.Completed? || m'.pc.Reading? then m'.objects else base
  }

  lemma StepShape(m: Machine, s: Step, base: Objects, job: Job, keyOf: KeyOf)
    requires IsPrefix(job.prefix) && Shape(m, base, job) && Legal(m, s, job, keyOf) && !s.Write?
    ensures var m' := Do(m, s, job, keyOf); Shape(m', NextBase(m, m', base), job)
  {
    match s
    case Begin(listing) =>
    case Read => ReadShape(m, base, job, keyOf);
    case Put(suffix, stored) => PutShape(m, suffix, stored, base, job, keyOf);
    case Validate => ValidateShape(m, base, job, keyOf);
    case Delete => DeleteShape(m, base, job, keyOf);
    case Abort =>
  }

  lemma ReadShape(m: Machine, base: Objects, job: Job, keyOf: KeyOf)
    requires Shape(m, base, job)
    ensures var m' := Do(m, Read, job, keyOf); Shape(m', NextBase(m, m', base), job)
  {
    if m.pc.Reading? && m.pc.next < |m.pc.keys| {
      var keys, next := m.pc.keys, m.pc.next;
      assert keys[next] in keys;
      assert keys[..next + 1][..next] == keys[..next];
    }
  }

  lemma PutShape(m: Machine, suffix: string, stored: nat, base: Objects, job: Job, keyOf: KeyOf)
    requires IsPrefix(job.prefix) && Shape(m, base, job) && Legal(m, Put(suffix, stored), job, keyOf)
    ensures var m' := Do(m, Put(suffix, stored), job, keyOf); Shape(m', NextBase(m, m', base), job)
  {
    CompactedIsNotSource(job.prefix, suffix);
    var m' := Do(m, Put(suffix, stored), job, keyOf);
    if m.pc.Reading? && m.pc.next == |m.pc.keys| {
      assert m.pc.keys[..m.pc.next] == m.pc.keys;
      assert m'.objects - {m'.pc.ckey} == base;
    }
  }

  lemma ValidateShape(m: Machine, base: Objects, job: Job, keyOf: KeyOf)
    requires Shape(m, base, job)
    ensures var m' := Do(m, Validate, job, keyOf); Shape(m', NextBase(m, m', base), job)
  {
    var m' := Do(m, Validate, job, keyOf);
    if m.pc.Written? && m'.pc.Deleting? {
      assert m.objects[m.pc.ckey] == m.pc.combined;
      assert m.objects == (m.objects - {m.pc.ckey})[m.pc.ckey := m.pc.combined];
      assert Without(m.objects, m.pc.keys[..0]) == m.objects;
    }
  }

  lemma DeleteShape(m: Machine, base: Objects, job: Job, keyOf: KeyOf)
    requires Shape(m, base, job)
    ensures var m' := Do(m, Delete, job, keyOf); Shape(m', NextBase(m, m', base), job)
  {
    if m.pc.Deleting? {
      var keys, next, ckey := m.pc.keys, m.pc.next, m.pc.ckey;
      var put := base[ckey := Combined(base, keys)];
      if next < |keys| {
        assert keys[..next + 1] == keys[..next] + [keys[next]];
        assert Without(put, keys[..next]) - {keys[next]} == Without(put, keys[..next + 1]);
      } else {
        assert keys[..next] == keys;
      }
    }
  }

  // ---------------------------------------------------------------- what an attempt keeps

  /** Same rows in the partition, same objects elsewhere, no new source. */
  ghost predicate Kept(before: Objects, after: Objects, prefix: string) {
    (forall row :: HasRow(before, prefix, row) <==> HasRow(after, prefix, row))
    && (forall k :: !(prefix <= k) ==> Lookup(before, k) == Lookup(after, k))
    && (forall k :: k in after && IsSource(k) ==> k in before && before[k] == after[k])
  }

  lemma ShapeRows(m: Machine, base: Objects, job: Job, row: Row)
    requires Shape(m, base, job)
    ensures HasRow(base, job.prefix, row) <==> HasRow(m.objects, job.prefix, row)
  {
    if m.pc.Written? {
      var ckey := m.pc.ckey;
      CombinedRows(base, m.pc.keys, row);
      assert forall f :: f in base ==> f in m.objects && m.objects[f] == base[f];
      assert forall f :: f in m.objects && f != ckey ==> f in base && base[f] == m.objects[f];
      assert row in m.objects[ckey] ==> row in m.pc.combined;
    } else if m.pc.Deleting? {
      DeletingRows(m, base, job, row);
    }
  }

  lemma DeletingRows(m: Machine, base: Objects, job: Job, row: Row)
    requires m.pc.Deleting? && Shape(m, base, job)
    ensures HasRow(base, job.prefix, row) <==> HasRow(m.objects, job.prefix, row)
  {
    var keys, next, ckey := m.pc.keys, m.pc.next, m.pc.ckey;
    CombinedRows(base, keys, row);
    assert ckey !in keys && ckey in m.objects && m.objects[ckey] == Combined(base, keys);
    if HasRow(base, job.prefix, row) {
      var f :| f in base && job.prefix <= f && row in base[f];
      if f in keys[..next] {
        assert f in keys && row in m.objects[ckey];
      } else {
        assert f in m.objects && m.objects[f] == base[f];
      }
    }
    if HasRow(m.objects, job.prefix, row) {
      var f :| f in m.objects && job.prefix <= f && row in m.objects[f];
      if f != ckey {
        assert f in base && base[f] == m.objects[f];
      }
    }
  }

  lemma ShapeKept(m: Machine, base: Objects, job: Job)
    requires Shape(m, base, job)
    ensures Kept(base, m.objects, job.prefix)
  {
    forall row ensures HasRow(base, job.prefix, row) <==> HasRow(m.objects, job.prefix, row) {
      ShapeRows(m, base, job, row);
    }
    if m.pc.Written? {
      assert forall f :: f in base ==> f in m.objects && m.objects[f] == base[f];
      assert forall f :: f in m.objects && f != m.pc.ckey ==> f in base && base[f] == m.objects[f];
    }
  }

  lemma Cancel(a: multiset<Row>, b: multiset<Row>, c: multiset<Row>)
    requires a + c == b + c
    ensures a == b
  {
    forall r ensures a[r] == b[r] {
      assert (a + c)[r] == a[r] + c[r] && (b + c)[r] == b[r] + c[r];
    }
  }

  /** Swapping the sources for one file with their rows conserves the number of every row. */
  lemma SwapConserves(base: Objects, keys: seq<string>, ckey: string)
    requires Distinct(keys) && ckey !in base && forall k :: k in keys ==> k in base
    ensures Total(Without(base[ckey := Combined(base, keys)], keys)) == Total(base)
  {
    var combined := Combined(base, keys);
    var put := base[ckey := combined];
    TotalPut(base, ckey, combined);
    TotalWithout(put, keys);
    CombinedSame(base, put, keys);
    Cancel(Total(Without(put, keys)), Total(base), multiset(combined));
  }

  // ---------------------------------------------------------------- whole runs

  /** The rows of the partition are the same set at every moment of a run without writers, whatever
      crashes; without a crash every finished attempt also has them in the same number, and a
      completed one leaves no source file. */
  lemma {:induction false} QuietRun(start: Objects, steps: seq<Step>, job: Job, keyOf: KeyOf) returns (base: Objects)
    requires IsPrefix(job.prefix) && Quiet(steps) && LegalRun(Machine(start, Idle), steps, job, keyOf)
    ensures Shape(Run(Machine(start, Idle), steps, job, keyOf), base, job)
    ensures Kept(start, base, job.prefix)
    ensures Abort !in steps ==> Total(base) == Total(start)
  {
    var m0 := Machine(start, Idle);
    if steps == [] {
      base := start;
    } else {
      var n := |steps| - 1;
      var m := Run(m0, steps[..n], job, keyOf);
      var before := QuietRun(start, steps[..n], job, keyOf);
      var m' := Do(m, steps[n], job, keyOf);
      StepShape(m, steps[n], before, job, keyOf);
      base := NextBase(m, m', before);
      StepKept(m, steps[n], before, job, keyOf);
    }
  }

  lemma StepKept(m: Machine, s: Step, base: Objects, job: Job, keyOf: KeyOf)
    requires IsPrefix(job.prefix) && Shape(m, base, job) && Legal(m, s, job, keyOf) && !s.Write?
    ensures var m' := Do(m, s, job, keyOf);
            Kept(base, NextBase(m, m', base), job.prefix)
            && (s != Abort ==> Total(NextBase(m, m', base)) == Total(base))
  {
    var m' := Do(m, s, job, keyOf);
    var base' := NextBase(m, m', base);
    ShapeKept(m, base, job);
    if m.pc.Deleting? && m.pc.next == |m.pc.keys| {
      assert m.pc.keys[..m.pc.next] == m.pc.keys;
      SwapConserves(base, m.pc.keys, m.pc.ckey);
    }
    if base' != base {
      assert m'.objects == m.objects;
    }
  }

  lemma RowsNeverChange(start: Objects, steps: seq<Step>, job: Job, keyOf: KeyOf)
    requires IsPrefix(job.prefix) && Quiet(steps) && LegalRun(Machine(start, Idle), steps, job, keyOf)
    ensures var m := Run(Machine(start, Idle), steps, job, keyOf);
            Kept(start, m.objects, job.prefix)
            && (Abort !in steps && (m.pc.Idle? || m.pc.Completed?) ==> Total(m.objects) == Total(start))
            && (m.pc.Completed? ==> forall k :: k in m.objects && job.prefix <= k ==> !IsSource(k))
  {
    var base := QuietRun(start, steps, job, keyOf);
    ShapeKept(Run(Machine(start, Idle), steps, job, keyOf), base, job);
  }

  // ---------------------------------------------------------------- how many copies

  /** Attempts broken off while their compacted file was in the store. */
  function Interrupted(m: Machine, steps: seq<Step>, job: Job, keyOf: KeyOf): nat {
    if steps == [] then 0
    else
      var init := steps[..|steps| - 1];
      Interrupted(m, init, job, keyOf)
      + (if steps[|steps| - 1] == Abort && InFlight(Run(m, init, job, keyOf)) then 1 else 0)
  }

  /** The compacted file of the current attempt is in the store. */
  predicate InFlight(m: Machine) {
    m.pc.Written? || m.pc.Deleting?
  }

  lemma TruncateSub(f: File, n: nat)
    ensures multiset(Truncate(f, n)) <= multiset(f)
  {
    if n <= |f| {
      assert f == f[..n] + f[n..];
    }
  }

  /** Within an attempt there is one more copy of each source row at most, and none before the put and
      after the end. */
  lemma OneCopy(m: Machine, base: Objects, job: Job, row: Row)
    requires Shape(m, base, job)
    ensures Total(m.objects)[row] <= Total(base)[row] + (if InFlight(m) then Total(Plain(base))[row] else 0)
  {
    if InFlight(m) {
      var keys, ckey := m.pc.keys, m.pc.ckey;
      CombinedPlain(base, keys);
      if m.pc.Written? {
        var torn := m.objects[ckey];
        assert m.objects == base[ckey := torn];
        TotalPut(base, ckey, torn);
        assert torn == Truncate(m.pc.combined, |torn|);
        TruncateSub(m.pc.combined, |torn|);
      } else {
        TotalPut(base, ckey, Combined(base, keys));
        TotalSub(m.objects, base[ckey := Combined(base, keys)]);
      }
    }
  }

  lemma PlainShrinks(start: Objects, base: Objects, prefix: string, row: Row)
    requires Kept(start, base, prefix)
    ensures Total(Plain(base))[row] <= Total(Plain(start))[row]
  {
    TotalSub(Plain(base), Plain(start));
  }

  /** `n` extra copies at most. */
  ghost predicate AtMost(start: Objects, objects: Objects, n: nat, row: Row) {
    Total(objects)[row] <= Total(start)[row] + n * Total(Plain(start))[row]
  }

  /** A step ends an attempt with the store it found, or, if it breaks the attempt off, with one copy
      more. */
  lemma BaseStep(start: Objects, m: Machine, s: Step, base: Objects, n: nat, job: Job, keyOf: KeyOf, row: Row)
    requires IsPrefix(job.prefix) && Shape(m, base, job) && Legal(m, s, job, keyOf) && !s.Write?
    requires Kept(start, base, job.prefix) && AtMost(start, base, n, row)
    ensures AtMost(start, NextBase(m, Do(m, s, job, keyOf), base), n + (if s == Abort && InFlight(m) then 1 else 0), row)
  {
    if s == Abort {
      OneCopy(m, base, job, row);
      PlainShrinks(start, base, job.prefix, row);
      OneMore(start, m.objects, base, n, row);
    } else {
      StepKept(m, s, base, job, keyOf);
    }
  }

  lemma OneMore(start: Objects, objects: Objects, base: Objects, n: nat, row: Row)
    requires AtMost(start, base, n, row)
    requires Total(objects)[row] <= Total(base)[row] + Total(Plain(start))[row]
    ensures AtMost(start, objects, n + 1, row)
  {
    var c := Total(Plain(start))[row];
    assert (n + 1) * c == n * c + c;
  }

  /** `base` is the store the current attempt found, with `n` extra copies at most. */
  ghost predicate Tracked(start: Objects, m: Machine, base: Objects, n: nat, job: Job, row: Row) {
    Shape(m, base, job) && Kept(start, base, job.prefix) && AtMost(start, base, n, row)
  }

  lemma BaseAdvances(start: Objects, m: Machine, s: Step, base: Objects, n: nat, job: Job, keyOf: KeyOf, row: Row)
      returns (base': Objects)
    requires IsPrefix(job.prefix) && Tracked(start, m, base, n, job, row) && Legal(m, s, job, keyOf) && !s.Write?
    ensures Tracked(start, Do(m, s, job, keyOf), base', n + (if s == Abort && InFlight(m) then 1 else 0), job, row)
  {
    base' := NextBase(m, Do(m, s, job, keyOf), base);
    StepShape(m, s, base, job, keyOf);
    StepKept(m, s, base, job, keyOf);
    KeptTransitive(start, base, base', job.prefix);
    BaseStep(start, m, s, base, n, job, keyOf, row);
  }

  lemma KeptTransitive(a: Objects, b: Objects, c: Objects, prefix: string)
    requires Kept(a, b, prefix) && Kept(b, c, prefix)
    ensures Kept(a, c, prefix)
  {
  }

  /** The store an attempt starts from holds at most one more copy of each source row for every
      attempt broken off before it with its compacted file in the store. */
  lemma {:induction false} BaseCopies(start: Objects, steps: seq<Step>, job: Job, keyOf: KeyOf, row: Row) returns (base: Objects)
    requires IsPrefix(job.prefix) && Quiet(steps) && LegalRun(Machine(start, Idle), steps, job, keyOf)
    ensures Tracked(start, Run(Machine(start, Idle), steps, job, keyOf), base,
                    Interrupted(Machine(start, Idle), steps, job, keyOf), job, row)
  {
    if steps == [] {
      base := start;
    } else {
      var init, s := steps[..|steps| - 1], steps[|steps| - 1];
      var n := Interrupted(Machine(start, Idle), init, job, keyOf);
      var before := BaseCopies(start, init, job, keyOf, row);
      base := BaseAdvances(start, Run(Machine(start, Idle), init, job, keyOf), s, before, n, job, keyOf, row);
    }
  }

  /** One copy per interrupted attempt, and one for the attempt that has its file in the store. */
  function Allowed(m: Machine, interrupted: nat): nat {
    if InFlight(m) then interrupted + 1 else interrupted
  }

  lemma NowAtMost(start: Objects, m: Machine, base: Objects, n: nat, job: Job, row: Row)
    requires Tracked(start, m, base, n, job, row)
    ensures AtMost(start, m.objects, Allowed(m, n), row)
  {
    OneCopy(m, base, job, row);
    PlainShrinks(start, base, job.prefix, row);
    if InFlight(m) {
      OneMore(start, m.objects, base, n, row);
    }
  }

  /** After k interrupted attempts, and any number of others, the store holds at most k extra copies of
      a source row, and one more while an attempt has its compacted file in the store. */
  lemma CopiesBounded(start: Objects, steps: seq<Step>, job: Job, keyOf: KeyOf, row: Row)
    requires IsPrefix(job.prefix) && Quiet(steps) && LegalRun(Machine(start, Idle), steps, job, keyOf)
    ensures var m := Run(Machine(start, Idle), steps, job, keyOf);
            AtMost(start, m.objects, Allowed(m, Interrupted(Machine(start, Idle), steps, job, keyOf)), row)
  {
    var m, n := Run(Machine(start, Idle), steps, job, keyOf), Interrupted(Machine(start, Idle), steps, job, keyOf);
    var base := BaseCopies(start, steps, job, keyOf, row);
    NowAtMost(start, m, base, n, job, row);
  }
}
