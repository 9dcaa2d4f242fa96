/** The compactor's methods as runs of the step machine, and what that says about one call. */
module CompactionRuns {
  import opened Common
  import opened Text
  import opened Compaction
  import opened CompactionSafety
  import opened CompactionConservation

  // ---------------------------------------------------------------- the threshold is tested twice

  lemma {:induction false} ParentIsPrefix(key: string)
    requires '/' in key
    ensures Parent(key) <= key
  {
    if '/' in key[1..] {
      ParentIsPrefix(key[1..]);
    }
  }

  lemma {:induction false} FilesInAre(listing: seq<string>, p: string)
    requires Distinct(listing)
    ensures Distinct(FilesIn(listing, p))
    ensures forall k :: k in FilesIn(listing, p) ==> k in listing && IsSource(k) && p <= k
  {
    if listing != [] {
      var init, k := listing[..|listing| - 1], listing[|listing| - 1];
      assert listing == init + [k];
      DistinctInit(listing);
      FilesInAre(init, p);
      if IsSource(k) && '/' in k && Parent(k) == p {
        ParentIsPrefix(k);
        DistinctConcat(FilesIn(init, p), [k]);
      }
    }
  }

  lemma {:induction false} DistinctFits(a: seq<string>, b: seq<string>)
    requires Distinct(a) && forall x :: x in a ==> x in b
    ensures |a| <= |b|
    decreases |a|
  {
    if a != [] {
      var last := a[|a| - 1];
      assert last in a && last in b;
      var i :| 0 <= i < |b| && b[i] == last;
      var rest := b[..i] + b[i + 1..];
      DistinctInit(a);
      forall x | x in a[..|a| - 1] ensures x in rest {
        assert x in a && x in b;
        assert b == b[..i] + [last] + b[i + 1..];
      }
      DistinctFits(a[..|a| - 1], rest);
    }
  }

  /** A partition that discovery selects is never turned away by `compact_partition` itself, even
      though the two count files in different ways. */
  lemma DiscoveredIsCompacted(objects: Objects, prefix: string, all: seq<string>, p: string, listing: seq<string>)
    requires IsListing(objects, prefix, all) && IsListing(objects, p, listing)
    ensures |FilesIn(all, p)| <= |Sources(listing)|
  {
    FilesInAre(all, p);
    DistinctFits(FilesIn(all, p), Sources(listing));
  }

  // ---------------------------------------------------------------- one call is a run

  /** `steps` is a run that brings `objects` to `m`. */
  ghost predicate Reaches(objects: Objects, steps: seq<Step>, m: Machine, job: Job, keyOf: KeyOf) {
    LegalRun(Machine(objects, Idle), steps, job, keyOf)
    && Run(Machine(objects, Idle), steps, job, keyOf) == m
  }

  lemma Then(objects: Objects, steps: seq<Step>, m: Machine, s: Step, job: Job, keyOf: KeyOf)
    requires Reaches(objects, steps, m, job, keyOf) && Legal(m, s, job, keyOf)
    ensures Reaches(objects, steps + [s], Do(m, s, job, keyOf), job, keyOf)
    ensures s != Abort && Abort !in steps ==> Abort !in steps + [s]
    ensures !s.Write? && Quiet(steps) ==> Quiet(steps + [s])
  {
    LegalSnoc(Machine(objects, Idle), steps, s, job, keyOf);
  }

  lemma {:induction false} ReadRun(objects: Objects, job: Job, listing: seq<string>, n: nat, keyOf: KeyOf)
      returns (steps: seq<Step>)
    requires IsListing(objects, job.prefix, listing)
    requires var keys := Sources(listing); job.minFiles <= |keys| && keys != [] && n <= |keys|
    ensures var keys := Sources(listing);
            Reaches(objects, steps, Machine(objects, Reading(keys, n, Combined(objects, keys[..n]))), job, keyOf)
    ensures Abort !in steps && Quiet(steps)
  {
    var keys := Sources(listing);
    if n == 0 {
      assert Reaches(objects, [], Machine(objects, Idle), job, keyOf);
      Then(objects, [], Machine(objects, Idle), Begin(listing), job, keyOf);
      steps := [] + [Begin(listing)];
      assert keys[..0] == [];
    } else {
      steps := ReadRun(objects, job, listing, n - 1, keyOf);
      Then(objects, steps, Machine(objects, Reading(keys, n - 1, Combined(objects, keys[..n - 1]))), Read, job, keyOf);
      steps := steps + [Read];
      assert keys[..n][..n - 1] == keys[..n - 1];
      assert keys[n - 1] in keys;
    }
  }

  lemma {:induction false} DeleteRun(objects: Objects, put: Objects, before: seq<Step>, keys: seq<string>, ckey: string,
                                     n: nat, job: Job, keyOf: KeyOf)
      returns (steps: seq<Step>)
    requires Reaches(objects, before, Machine(put, Deleting(keys, 0, ckey)), job, keyOf) && n <= |keys|
    ensures Reaches(objects, steps, Machine(Without(put, keys[..n]), Deleting(keys, n, ckey)), job, keyOf)
    ensures before <= steps
    ensures (Abort !in before ==> Abort !in steps) && (Quiet(before) ==> Quiet(steps))
  {
    if n == 0 {
      steps := before;
      assert Without(put, keys[..0]) == put;
    } else {
      steps := DeleteRun(objects, put, before, keys, ckey, n - 1, job, keyOf);
      Then(objects, steps, Machine(Without(put, keys[..n - 1]), Deleting(keys, n - 1, ckey)), Delete, job, keyOf);
      steps := steps + [Delete];
      DeleteNext(put, keys, n - 1);
    }
  }

  /** The end of a run agrees with an outcome of the call. */
  ghost predicate Ends(objects: Objects, steps: seq<Step>, outcome: Outcome, job: Job, keyOf: KeyOf) {
    var m := Run(Machine(objects, Idle), steps, job, keyOf);
    Quiet(steps) && LegalRun(Machine(objects, Idle), steps, job, keyOf) && m.objects == outcome.objects
    && (outcome.result.compacted <==> m.pc == Completed)
    && (outcome.result.compacted ==> Abort !in steps)
  }

  /** Whatever fails during `compact_partition`, the store ends where a run of the step machine
      without writers ends, and the call reports success exactly when that run completed. */
  lemma CompactIsRun(objects: Objects, job: Job, listing: seq<string>, suffix: string, stored: nat, fault: Fault,
                     keyOf: KeyOf) returns (steps: seq<Step>)
    requires IsPrefix(job.prefix) && IsListing(objects, job.prefix, listing)
    requires Free(suffix, '/') && CompactedKey(job.prefix, suffix) !in objects
    ensures Ends(objects, steps, Compact(objects, job, Sources(listing), suffix, stored, fault), job, keyOf)
  {
    var keys := Sources(listing);
    if fault == AtList || |keys| < job.minFiles || keys == [] {
      steps := [];
    } else {
      steps := ReadRun(objects, job, listing, |keys|, keyOf);
      assert keys[..|keys|] == keys;
      var combined := Combined(objects, keys);
      if (fault.AtRead? && fault.i <= |keys|) || fault == AtPut(false) {
        Then(objects, steps, Machine(objects, Reading(keys, |keys|, combined)), Abort, job, keyOf);
        steps := steps + [Abort];
      } else {
        steps := PutRun(objects, steps, keys, suffix, stored, fault, job, keyOf);
      }
    }
  }

  lemma PutRun(objects: Objects, before: seq<Step>, keys: seq<string>, suffix: string, stored: nat, fault: Fault,
               job: Job, keyOf: KeyOf) returns (steps: seq<Step>)
    requires forall k :: k in keys ==> k in objects
    requires Reaches(objects, before, Machine(objects, Reading(keys, |keys|, Combined(objects, keys))), job, keyOf)
    requires Abort !in before && Quiet(before)
    requires Free(suffix, '/') && CompactedKey(job.prefix, suffix) !in objects && fault != AtPut(false)
    ensures Ends(objects, steps, Swap(objects, job.prefix, keys, Combined(objects, keys), suffix, stored, fault), job, keyOf)
  {
    var combined, ckey := Combined(objects, keys), CompactedKey(job.prefix, suffix);
    var torn := Truncate(combined, stored);
    var put := objects[ckey := torn];
    Then(objects, before, Machine(objects, Reading(keys, |keys|, combined)), Put(suffix, stored), job, keyOf);
    steps := before + [Put(suffix, stored)];
    var m := Machine(put, Written(keys, ckey, combined));
    if fault == AtPut(true) || fault == AtValidate || (|torn| != |combined| && fault == AtDelete(0, false)) {
      Then(objects, steps, m, Abort, job, keyOf);
      steps := steps + [Abort];
    } else {
      Then(objects, steps, m, Validate, job, keyOf);
      steps := steps + [Validate];
      if |torn| != |combined| {
        assert put - {ckey} == objects - {ckey};
      } else {
        assert torn == combined;
        steps := SwapRun(objects, put, steps, keys, ckey, fault, job, keyOf);
      }
    }
  }

  lemma SwapRun(objects: Objects, put: Objects, before: seq<Step>, keys: seq<string>, ckey: string, fault: Fault,
                job: Job, keyOf: KeyOf) returns (steps: seq<Step>)
    requires Reaches(objects, before, Machine(put, Deleting(keys, 0, ckey)), job, keyOf) && Abort !in before
    requires Quiet(before)
    ensures var n := Deleted(|keys|, fault);
            Reaches(objects, steps, Machine(Without(put, keys[..n]),
              if fault.AtDelete? && fault.j < |keys| then Idle else Completed), job, keyOf)
    ensures Quiet(steps) && (!(fault.AtDelete? && fault.j < |keys|) ==> Abort !in steps)
  {
    var n := Deleted(|keys|, fault);
    steps := DeleteRun(objects, put, before, keys, ckey, n, job, keyOf);
    var last := if fault.AtDelete? && fault.j < |keys| then Abort else Delete;
    Then(objects, steps, Machine(Without(put, keys[..n]), Deleting(keys, n, ckey)), last, job, keyOf);
    steps := steps + [last];
  }

  /** The failure lies behind the last storage call. */
  predicate Harmless(fault: Fault, n: nat) {
    fault == NoFault || (fault.AtRead? && fault.i > n) || (fault.AtDelete? && fault.j >= n)
  }

  /** A call compacts exactly when there are enough files, the whole file was stored and nothing
      fails; it reports no error exactly then or when there was nothing to do. */
  lemma SucceedsIff(objects: Objects, job: Job, keys: seq<string>, suffix: string, stored: nat, fault: Fault)
    requires forall k :: k in keys ==> k in objects
    ensures var r := Compact(objects, job, keys, suffix, stored, fault).result;
            var enough, rows := job.minFiles <= |keys| && keys != [], |Combined(objects, keys)|;
            (r.compacted <==> enough && rows <= stored && Harmless(fault, |keys|))
            && (r.errors == 0 <==> r.compacted || (!enough && fault != AtList))
            && (r.compacted ==> r.recordsBefore == r.recordsAfter == rows && r.sourceFiles == |keys|)
  {
    var combined := Combined(objects, keys);
    if stored < |combined| {
      assert |Truncate(combined, stored)| == stored;
    } else {
      assert Truncate(combined, stored) == combined;
    }
  }

  /** What a call reports, wherever it fails: nothing counted before the listing is known to be long
      enough; then the files, the rows once they are read, the rows stored once they are counted; one
      error for a failure, and a second one if the torn file cannot be removed either. */
  lemma CallReports(objects: Objects, job: Job, keys: seq<string>, suffix: string, stored: nat, fault: Fault)
    requires forall k :: k in keys ==> k in objects
    ensures var r, n := Compact(objects, job, keys, suffix, stored, fault).result, |keys|;
            var rows := |Combined(objects, keys)|;
            var started := fault != AtList && keys != [] && n >= job.minFiles;
            var read := started && !(fault.AtRead? && fault.i <= n);
            var counted := read && !fault.AtPut? && fault != AtValidate;
            && r.sourceFiles == (if started then n else 0)
            && r.recordsBefore == (if read then rows else 0)
            && r.recordsAfter == (if !counted then 0 else if stored < rows then stored else rows)
            && (fault == AtList ==> r.errors == 1)
            && (fault != AtList && !started ==> r.errors == 0)
            && (started && !counted ==> r.errors == 1)
            && (counted && stored < rows ==> r.errors == if fault.AtDelete? && fault.j == 0 then 2 else 1)
            && (counted && stored >= rows ==> r.errors == if fault.AtDelete? && fault.j < n then 1 else 0)
            && (r.compacted <==> counted && r.errors == 0)
  {
    var combined := Combined(objects, keys);
    if stored < |combined| {
      assert |Truncate(combined, stored)| == stored;
    } else {
      assert Truncate(combined, stored) == combined;
    }
  }

  /** Which files a call leaves, wherever it fails. The compacted file is there from the moment its put
      took effect, with the rows that were stored, unless it was found torn and could be removed; the
      sources are there up to those deleted after a count that agreed; and nothing else changes. */
  lemma CallLeaves(objects: Objects, job: Job, keys: seq<string>, suffix: string, stored: nat, fault: Fault, key: string)
    requires (forall k :: k in keys ==> k in objects) && Distinct(keys)
    requires CompactedKey(job.prefix, suffix) !in objects
    ensures var after, rows := Compact(objects, job, keys, suffix, stored, fault).objects, Combined(objects, keys);
            var put := fault != AtList && keys != [] && |keys| >= job.minFiles && !(fault.AtRead? && fault.i <= |keys|)
                       && fault != AtPut(false);
            var counted := put && !fault.AtPut? && fault != AtValidate;
            var ckey := CompactedKey(job.prefix, suffix);
            var deleted := if !(counted && stored >= |rows|) then 0
                           else if fault.AtDelete? && fault.j < |keys| then fault.j + (if fault.took then 1 else 0) else |keys|;
            && (ckey in after <==> put && (counted && stored < |rows| ==> fault == AtDelete(0, false)))
            && (ckey in after ==> after[ckey] == if stored < |rows| then rows[..stored] else rows)
            && (key != ckey ==> (key in after <==> key in objects && key !in keys[..deleted]))
            && (key != ckey && key in after ==> after[key] == objects[key])
  {
    assert keys[..0] == [];
  }

  /** One call without concurrent writers, wherever it fails: the partition keeps exactly its set of
      rows and other partitions keep their objects. A call that reports success also keeps the
      number of each row, and leaves no source behind. */
  lemma CallConserves(objects: Objects, job: Job, listing: seq<string>, suffix: string, stored: nat, fault: Fault)
    requires IsPrefix(job.prefix) && IsListing(objects, job.prefix, listing)
    requires Free(suffix, '/') && CompactedKey(job.prefix, suffix) !in objects
    ensures var outcome := Compact(objects, job, Sources(listing), suffix, stored, fault);
            Kept(objects, outcome.objects, job.prefix)
            && (outcome.result.compacted ==>
                  Total(outcome.objects) == Total(objects)
                  && forall k :: k in outcome.objects && job.prefix <= k ==> !IsSource(k))
  {
    var keyOf := (r: Row) => r.eventId;
    var steps := CompactIsRun(objects, job, listing, suffix, stored, fault, keyOf);
    RowsNeverChange(objects, steps, job, keyOf);
  }

  /** A call on enough files whose put stores the whole file, and in which nothing fails, compacts: no
      source is left, and the rows are all there in the same number. */
  lemma CleanCallCompacts(objects: Objects, job: Job, listing: seq<string>, suffix: string, stored: nat, fault: Fault)
    requires IsPrefix(job.prefix) && IsListing(objects, job.prefix, listing)
    requires Free(suffix, '/') && CompactedKey(job.prefix, suffix) !in objects
    requires job.minFiles <= |Sources(listing)| && Sources(listing) != [] && Harmless(fault, |Sources(listing)|)
    requires |Combined(objects, Sources(listing))| <= stored
    ensures var outcome := Compact(objects, job, Sources(listing), suffix, stored, fault);
            outcome.result.compacted && outcome.result.errors == 0 && Total(outcome.objects) == Total(objects)
            && forall k :: k in outcome.objects && job.prefix <= k ==> !IsSource(k)
  {
    SucceedsIff(objects, job, Sources(listing), suffix, stored, fault);
    CallConserves(objects, job, listing, suffix, stored, fault);
  }

  // ---------------------------------------------------------------- a rewrite during compaction

  /** An attempt in which nothing fails, before its `t`-th step. */
  function AttemptAt(objects: Objects, keys: seq<string>, ckey: string, t: nat): Machine
    requires (forall k :: k in keys ==> k in objects) && t <= 2 * |keys| + 4
  {
    var n, combined := |keys|, Combined(objects, keys);
    var put := objects[ckey := combined];
    if t == 0 then Machine(objects, Idle)
    else if t <= n + 1 then Machine(objects, Reading(keys, t - 1, Combined(objects, keys[..t - 1])))
    else if t == n + 2 then Machine(put, Written(keys, ckey, combined))
    else if t <= 2 * n + 3 then Machine(Without(put, keys[..t - n - 3]), Deleting(keys, t - n - 3, ckey))
    else Machine(Without(put, keys), Completed)
  }

  /** Its `t`-th step. */
  function AttemptStep(listing: seq<string>, suffix: string, rows: nat, n: nat, t: nat): Step {
    if t == 0 then Begin(listing)
    else if t <= n then Read
    else if t == n + 1 then Put(suffix, rows)
    else if t == n + 2 then Validate
    else Delete
  }

  /** A machine into whose store a writer has put `row`. */
  function WithRow(m: Machine, k: string, row: Row): Machine {
    m.(objects := m.objects[k := [row]])
  }

  /** The attempt into which the write falls before step `p`: whoever deletes the key later also
      deletes what was written. */
  function RewrittenAt(objects: Objects, keys: seq<string>, ckey: string, p: nat, k: string, row: Row, t: nat): Machine
    requires (forall k :: k in keys ==> k in objects) && t <= 2 * |keys| + 4
  {
    var m := AttemptAt(objects, keys, ckey, t);
    if t < p || Gone(keys, k, t) then m else WithRow(m, k, row)
  }

  /** The attempt has deleted `k` before step `t`. */
  predicate Gone(keys: seq<string>, k: string, t: nat) {
    exists j :: 0 <= j < |keys| && keys[j] == k && t > |keys| + 3 + j
  }

  /** The write falls after the compactor read the file at `k`, if it lists one, and before it
      deletes it. */
  predicate InBetween(keys: seq<string>, k: string, p: nat) {
    1 <= p <= 2 * |keys| + 4 && forall j :: 0 <= j < |keys| && keys[j] == k ==> j + 2 <= p <= |keys| + 3 + j
  }

  /** What every step of these attempts needs to know of its store and names. */
  ghost predicate Setting(objects: Objects, job: Job, listing: seq<string>, suffix: string) {
    IsPrefix(job.prefix) && IsListing(objects, job.prefix, listing) && Free(suffix, '/')
    && CompactedKey(job.prefix, suffix) !in objects
    && job.minFiles <= |Sources(listing)| && Sources(listing) != []
  }

  lemma AttemptNext(objects: Objects, job: Job, listing: seq<string>, suffix: string, t: nat, keyOf: KeyOf)
    requires Setting(objects, job, listing, suffix) && t < 2 * |Sources(listing)| + 4
    ensures var keys, ckey := Sources(listing), CompactedKey(job.prefix, suffix);
            var s := AttemptStep(listing, suffix, |Combined(objects, keys)|, |keys|, t);
            Legal(AttemptAt(objects, keys, ckey, t), s, job, keyOf)
            && Do(AttemptAt(objects, keys, ckey, t), s, job, keyOf) == AttemptAt(objects, keys, ckey, t + 1)
  {
    var keys, ckey := Sources(listing), CompactedKey(job.prefix, suffix);
    var n, combined := |keys|, Combined(objects, keys);
    assert keys[..n] == keys;
    if t == 0 {
      assert keys[..0] == [];
    } else if t <= n {
      ReadNext(objects, keys, ckey, t, job, keyOf);
    } else if t == n + 1 {
      assert Truncate(combined, |combined|) == combined;
    } else {
      SwapNext(objects, keys, ckey, t, job, keyOf);
    }
  }

  lemma ReadNext(objects: Objects, keys: seq<string>, ckey: string, t: nat, job: Job, keyOf: KeyOf)
    requires (forall k :: k in keys ==> k in objects) && 1 <= t <= |keys|
    ensures Do(AttemptAt(objects, keys, ckey, t), Read, job, keyOf) == AttemptAt(objects, keys, ckey, t + 1)
  {
    assert keys[t - 1] in keys && keys[..t][..t - 1] == keys[..t - 1];
  }

  lemma SwapNext(objects: Objects, keys: seq<string>, ckey: string, t: nat, job: Job, keyOf: KeyOf)
    requires (forall k :: k in keys ==> k in objects) && |keys| + 2 <= t < 2 * |keys| + 4
    ensures Do(AttemptAt(objects, keys, ckey, t), if t == |keys| + 2 then Validate else Delete, job, keyOf)
         == AttemptAt(objects, keys, ckey, t + 1)
  {
    var n, put := |keys|, objects[ckey := Combined(objects, keys)];
    if t == n + 2 {
      assert Without(put, keys[..0]) == put;
    } else if t < 2 * n + 3 {
      DeleteNext(put, keys, t - n - 3);
    } else {
      assert keys[..n] == keys;
    }
  }

  lemma DeleteNext(put: Objects, keys: seq<string>, j: nat)
    requires j < |keys|
    ensures Without(put, keys[..j]) - {keys[j]} == Without(put, keys[..j + 1])
  {
    assert keys[..j + 1] == keys[..j] + [keys[j]];
  }

  /** A step commutes with a written row, unless it reads or deletes the row's key; deleting it takes
      the row with it. */
  lemma StepOver(m: Machine, s: Step, k: string, row: Row, job: Job, keyOf: KeyOf)
    requires match s
             case Read => m.pc.Reading? && m.pc.next < |m.pc.keys| && m.pc.keys[m.pc.next] != k
                          && m.pc.keys[m.pc.next] in m.objects
             case Put(suffix, _) => CompactedKey(job.prefix, suffix) != k
             case Validate => m.pc.Written? && m.pc.ckey in m.objects && m.pc.ckey != k
                              && |m.objects[m.pc.ckey]| == |m.pc.combined|
             case Delete => m.pc.Deleting?
             case _ => false
    ensures Do(WithRow(m, k, row), s, job, keyOf)
         == if s.Delete? && m.pc.next < |m.pc.keys| && m.pc.keys[m.pc.next] == k then Do(m, s, job, keyOf)
            else WithRow(Do(m, s, job, keyOf), k, row)
  {
    match s
    case Put(suffix, stored) =>
      if m.pc.Reading? && m.pc.next == |m.pc.keys| {
        var ckey, f := CompactedKey(job.prefix, suffix), Truncate(m.pc.combined, stored);
        assert m.objects[k := [row]][ckey := f] == m.objects[ckey := f][k := [row]];
      }
    case Delete =>
      if m.pc.next < |m.pc.keys| {
        var gone := m.pc.keys[m.pc.next];
        if gone == k {
          assert m.objects[k := [row]] - {k} == m.objects - {k};
        } else {
          assert m.objects[k := [row]] - {gone} == (m.objects - {gone})[k := [row]];
        }
      }
    case _ =>
  }

  /** Only step |keys| + 3 + j deletes `keys[j]`. */
  lemma GoneNext(keys: seq<string>, k: string, t: nat)
    requires Distinct(keys)
    ensures Gone(keys, k, t + 1) <==> Gone(keys, k, t) || (|keys| + 3 <= t < 2 * |keys| + 3 && keys[t - |keys| - 3] == k)
  {
    if |keys| + 3 <= t < 2 * |keys| + 3 && keys[t - |keys| - 3] == k {
      assert t + 1 > |keys| + 3 + (t - |keys| - 3);
    }
  }

  /** A step of the attempt while the written row lies in its store. */
  lemma StepBeside(objects: Objects, job: Job, listing: seq<string>, suffix: string, p: nat, k: string, row: Row, t: nat,
                   keyOf: KeyOf)
    requires Setting(objects, job, listing, suffix) && 1 <= p <= t < 2 * |Sources(listing)| + 4
    requires InBetween(Sources(listing), k, p) && CompactedKey(job.prefix, suffix) != k
    ensures var keys, ckey := Sources(listing), CompactedKey(job.prefix, suffix);
            var s := AttemptStep(listing, suffix, |Combined(objects, keys)|, |keys|, t);
            var m := AttemptAt(objects, keys, ckey, t);
            Legal(WithRow(m, k, row), s, job, keyOf)
            && Do(WithRow(m, k, row), s, job, keyOf)
               == if |keys| + 3 <= t < 2 * |keys| + 3 && keys[t - |keys| - 3] == k then Do(m, s, job, keyOf)
                  else WithRow(Do(m, s, job, keyOf), k, row)
  {
    var keys, ckey := Sources(listing), CompactedKey(job.prefix, suffix);
    if t <= |keys| {
      assert keys[t - 1] in keys;
    }
    StepOver(AttemptAt(objects, keys, ckey, t), AttemptStep(listing, suffix, |Combined(objects, keys)|, |keys|, t), k, row, job,
             keyOf);
  }

  /** The same step of the attempt with the written row in its store. */
  lemma RewrittenNext(objects: Objects, job: Job, listing: seq<string>, suffix: string, p: nat, row: Row, t: nat, keyOf: KeyOf)
    requires Setting(objects, job, listing, suffix) && 1 <= p <= t < 2 * |Sources(listing)| + 4
    requires InBetween(Sources(listing), keyOf(row), p) && IsSource(keyOf(row))
    ensures var keys, ckey, k := Sources(listing), CompactedKey(job.prefix, suffix), keyOf(row);
            var s := AttemptStep(listing, suffix, |Combined(objects, keys)|, |keys|, t);
            var m := RewrittenAt(objects, keys, ckey, p, k, row, t);
            Legal(m, s, job, keyOf) && Do(m, s, job, keyOf) == RewrittenAt(objects, keys, ckey, p, k, row, t + 1)
  {
    AttemptNext(objects, job, listing, suffix, t, keyOf);
    CompactedIsNotSource(job.prefix, suffix);
    GoneNext(Sources(listing), keyOf(row), t);
    StepBeside(objects, job, listing, suffix, p, keyOf(row), row, t, keyOf);
  }

  /** The store a completed attempt leaves when a writer puts `row` in between. */
  function RewrittenDuring(objects: Objects, keys: seq<string>, ckey: string, row: Row, keyOf: KeyOf): Objects
    requires forall k :: k in keys ==> k in objects
  {
    Without(objects[keyOf(row) := [row]][ckey := Combined(objects, keys)], keys)
  }

  lemma {:induction false} BeforeWrite(objects: Objects, job: Job, listing: seq<string>, suffix: string, t: nat, keyOf: KeyOf)
      returns (steps: seq<Step>)
    requires Setting(objects, job, listing, suffix) && t <= 2 * |Sources(listing)| + 4
    ensures |steps| == t
    ensures Reaches(objects, steps, AttemptAt(objects, Sources(listing), CompactedKey(job.prefix, suffix), t), job, keyOf)
  {
    if t == 0 {
      steps := [];
    } else {
      steps := BeforeWrite(objects, job, listing, suffix, t - 1, keyOf);
      AttemptNext(objects, job, listing, suffix, t - 1, keyOf);
      var keys := Sources(listing);
      var s := AttemptStep(listing, suffix, |Combined(objects, keys)|, |keys|, t - 1);
      Then(objects, steps, AttemptAt(objects, keys, CompactedKey(job.prefix, suffix), t - 1), s, job, keyOf);
      steps := steps + [s];
    }
  }

  lemma WriteStarts(objects: Objects, keys: seq<string>, ckey: string, p: nat, row: Row, job: Job, keyOf: KeyOf)
    requires (forall k :: k in keys ==> k in objects) && InBetween(keys, keyOf(row), p)
    ensures Do(AttemptAt(objects, keys, ckey, p), Write(row), job, keyOf) == RewrittenAt(objects, keys, ckey, p, keyOf(row), row, p)
  {
  }

  lemma OneStepOn(objects: Objects, job: Job, listing: seq<string>, suffix: string, p: nat, row: Row, t: nat, keyOf: KeyOf,
                  steps: seq<Step>)
    requires Setting(objects, job, listing, suffix) && 1 <= p <= t < 2 * |Sources(listing)| + 4
    requires InBetween(Sources(listing), keyOf(row), p) && IsSource(keyOf(row))
    requires Reaches(objects, steps,
               RewrittenAt(objects, Sources(listing), CompactedKey(job.prefix, suffix), p, keyOf(row), row, t), job, keyOf)
    ensures var keys, ckey := Sources(listing), CompactedKey(job.prefix, suffix);
            Reaches(objects, steps + [AttemptStep(listing, suffix, |Combined(objects, keys)|, |keys|, t)],
              RewrittenAt(objects, keys, ckey, p, keyOf(row), row, t + 1), job, keyOf)
  {
    var keys, ckey := Sources(listing), CompactedKey(job.prefix, suffix);
    RewrittenNext(objects, job, listing, suffix, p, row, t, keyOf);
    Then(objects, steps, RewrittenAt(objects, keys, ckey, p, keyOf(row), row, t),
         AttemptStep(listing, suffix, |Combined(objects, keys)|, |keys|, t), job, keyOf);
  }

  lemma {:induction false} AfterWrite(objects: Objects, job: Job, listing: seq<string>, suffix: string, p: nat, row: Row,
                                      t: nat, keyOf: KeyOf) returns (steps: seq<Step>)
    requires Setting(objects, job, listing, suffix) && p <= t <= 2 * |Sources(listing)| + 4
    requires InBetween(Sources(listing), keyOf(row), p) && IsSource(keyOf(row))
    ensures p < |steps| && steps[p] == Write(row)
    ensures Reaches(objects, steps,
              RewrittenAt(objects, Sources(listing), CompactedKey(job.prefix, suffix), p, keyOf(row), row, t), job, keyOf)
    decreases t
  {
    var keys, ckey := Sources(listing), CompactedKey(job.prefix, suffix);
    if t == p {
      steps := BeforeWrite(objects, job, listing, suffix, p, keyOf);
      WriteStarts(objects, keys, ckey, p, row, job, keyOf);
      Then(objects, steps, AttemptAt(objects, keys, ckey, p), Write(row), job, keyOf);
      steps := steps + [Write(row)];
    } else {
      steps := AfterWrite(objects, job, listing, suffix, p, row, t - 1, keyOf);
      OneStepOn(objects, job, listing, suffix, p, row, t - 1, keyOf, steps);
      steps := steps + [AttemptStep(listing, suffix, |Combined(objects, keys)|, |keys|, t - 1)];
    }
  }

  /** Wherever between read and delete a writer puts the row, there is such a run, it completes, and
      it leaves the same store. */
  lemma RewriteRun(objects: Objects, job: Job, listing: seq<string>, suffix: string, p: nat, row: Row, keyOf: KeyOf)
      returns (steps: seq<Step>)
    requires Setting(objects, job, listing, suffix)
    requires InBetween(Sources(listing), keyOf(row), p) && IsSource(keyOf(row))
    ensures p < |steps| && steps[p] == Write(row)
    ensures Reaches(objects, steps,
              Machine(RewrittenDuring(objects, Sources(listing), CompactedKey(job.prefix, suffix), row, keyOf), Completed),
              job, keyOf)
  {
    CompactedIsNotSource(job.prefix, suffix);
    var keys, ckey := Sources(listing), CompactedKey(job.prefix, suffix);
    steps := AfterWrite(objects, job, listing, suffix, p, row, 2 * |keys| + 4, keyOf);
    RewrittenAtEnd(objects, keys, ckey, p, row, keyOf);
  }

  lemma RewrittenAtEnd(objects: Objects, keys: seq<string>, ckey: string, p: nat, row: Row, keyOf: KeyOf)
    requires (forall k :: k in keys ==> k in objects) && keyOf(row) != ckey && InBetween(keys, keyOf(row), p)
    ensures RewrittenAt(objects, keys, ckey, p, keyOf(row), row, 2 * |keys| + 4)
         == Machine(RewrittenDuring(objects, keys, ckey, row, keyOf), Completed)
  {
    var k, last := keyOf(row), 2 * |keys| + 4;
    var put := objects[ckey := Combined(objects, keys)];
    if k in keys {
      var j :| 0 <= j < |keys| && keys[j] == k;
      assert Gone(keys, k, last);
      assert Without(put, keys) == RewrittenDuring(objects, keys, ckey, row, keyOf);
    } else {
      assert !Gone(keys, k, last);
      assert Without(put, keys)[k := [row]] == RewrittenDuring(objects, keys, ckey, row, keyOf);
    }
  }

  /** The compactor validates a count and then deletes. A row put over a file between its read and
      its delete is in the partition afterwards exactly when the file was not listed or the
      partition held the row before, in that file or in an older compacted one. */
  lemma RewriteSurvivesIff(objects: Objects, job: Job, listing: seq<string>, ckey: string, row: Row, keyOf: KeyOf)
    requires IsListing(objects, job.prefix, listing)
    requires job.prefix <= keyOf(row) && IsSource(keyOf(row))
    requires job.prefix <= ckey && !IsSource(ckey) && ckey !in objects
    ensures var keys := Sources(listing);
            HasRow(RewrittenDuring(objects, keys, ckey, row, keyOf), job.prefix, row)
            <==> keyOf(row) !in keys || HasRow(objects, job.prefix, row)
  {
    var keys, k := Sources(listing), keyOf(row);
    var after := RewrittenDuring(objects, keys, ckey, row, keyOf);
    CombinedRows(objects, keys, row);
    assert ckey in after && after[ckey] == Combined(objects, keys);
    if k !in keys {
      assert k in after && after[k] == [row];
    } else {
      if HasRow(objects, job.prefix, row) {
        var f :| f in objects && job.prefix <= f && row in objects[f];
        assert f in keys || (f in after && after[f] == objects[f]);
      }
      if HasRow(after, job.prefix, row) {
        var f :| f in after && job.prefix <= f && row in after[f];
        if f == ckey {
          var k' :| k' in keys && row in objects[k'];
          assert k' in objects && job.prefix <= k';
        } else {
          assert f in objects && objects[f] == after[f];
        }
      }
    }
  }
}
