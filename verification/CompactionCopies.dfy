/** The bound on the copies that interrupted attempts leave is reached. */
module CompactionCopies {
  import opened Common
  import opened Text
  import opened Compaction
  import opened CompactionConservation
  import opened CompactionRuns

  function NthKey(prefix: string, i: nat): string {
    CompactedKey(prefix, Decimal(i))
  }

  /** One source file with one row, and `n` compacted copies of it. */
  function Copies(prefix: string, k: string, row: Row, n: nat): Objects {
    if n == 0 then map[k := [row]] else Copies(prefix, k, row, n - 1)[NthKey(prefix, n - 1) := [row]]
  }

  function CopyList(prefix: string, k: string, n: nat): seq<string> {
    if n == 0 then [k] else CopyList(prefix, k, n - 1) + [NthKey(prefix, n - 1)]
  }

  lemma NthKeyNew(prefix: string, i: nat, j: nat)
    requires IsPrefix(prefix)
    ensures !IsSource(NthKey(prefix, i)) && prefix <= NthKey(prefix, i) && Free(Decimal(i), '/')
    ensures NthKey(prefix, i) == NthKey(prefix, j) ==> i == j
  {
    CompactedIsNotSource(prefix, Decimal(i));
    var a, b, c := NthKey(prefix, i), NthKey(prefix, j), |prefix + COMPACTED|;
    if a == b {
      assert a[c..|a| - |PARQUET|] == Decimal(i) && b[c..|b| - |PARQUET|] == Decimal(j);
      DecimalInjective(i, j);
    }
  }

  lemma {:induction false} CopyKeys(prefix: string, k: string, row: Row, n: nat, i: nat)
    requires IsPrefix(prefix) && IsSource(k) && prefix <= k
    ensures IsListing(Copies(prefix, k, row, n), prefix, CopyList(prefix, k, n))
    ensures i >= n ==> NthKey(prefix, i) !in Copies(prefix, k, row, n)
  {
    NthKeyNew(prefix, i, 0);
    if n > 0 {
      CopyKeys(prefix, k, row, n - 1, n - 1);
      CopyKeys(prefix, k, row, n - 1, i);
      NthKeyNew(prefix, n - 1, i);
      DistinctConcat(CopyList(prefix, k, n - 1), [NthKey(prefix, n - 1)]);
    }
  }

  lemma OnlyOne(keys: seq<string>, k: string)
    requires Distinct(keys) && k in keys && forall x :: x in keys ==> x == k
    ensures keys == [k]
  {
    forall i | 0 <= i < |keys| ensures i == 0 && keys[i] == k {
      assert keys[i] in keys && keys[0] in keys;
      assert keys[i] == keys[0];
    }
    assert keys[|keys| - 1] == k;
  }

  lemma OnlySource(listing: seq<string>, k: string)
    requires Distinct(listing) && k in listing && IsSource(k) && forall x :: x in listing && x != k ==> !IsSource(x)
    ensures Sources(listing) == [k]
  {
    OnlyOne(Sources(listing), k);
  }

  lemma {:induction false} CopySources(prefix: string, k: string, n: nat)
    requires IsPrefix(prefix)
    ensures k in CopyList(prefix, k, n) && forall x :: x in CopyList(prefix, k, n) && x != k ==> !IsSource(x)
  {
    if n > 0 {
      CopySources(prefix, k, n - 1);
      NthKeyNew(prefix, n - 1, 0);
    }
  }

  lemma {:induction false} CopyTotal(prefix: string, k: string, row: Row, n: nat)
    requires IsPrefix(prefix) && IsSource(k) && prefix <= k
    ensures k in Copies(prefix, k, row, n) && Copies(prefix, k, row, n)[k] == [row]
    ensures Total(Copies(prefix, k, row, n))[row] == n + 1
  {
    if n == 0 {
      TotalPut(map[], k, [row]);
      assert map[][k := [row]] == map[k := [row]];
    } else {
      CopyTotal(prefix, k, row, n - 1);
      CopyKeys(prefix, k, row, n - 1, n - 1);
      NthKeyNew(prefix, n - 1, 0);
      TotalPut(Copies(prefix, k, row, n - 1), NthKey(prefix, n - 1), [row]);
    }
  }

  /** An attempt broken off right after its put. */
  function BrokenAttempt(prefix: string, k: string, n: nat): seq<Step> {
    [Begin(CopyList(prefix, k, n)), Read, Put(Decimal(n), 1), Abort]
  }

  function Broken(prefix: string, k: string, n: nat): seq<Step> {
    if n == 0 then [] else Broken(prefix, k, n - 1) + BrokenAttempt(prefix, k, n - 1)
  }

  /** The run reaches a machine with so many attempts interrupted. */
  ghost predicate ReachesAfter(start: Objects, steps: seq<Step>, m: Machine, n: nat, job: Job, keyOf: KeyOf) {
    Reaches(start, steps, m, job, keyOf) && Interrupted(Machine(start, Idle), steps, job, keyOf) == n
  }

  lemma OneStep(start: Objects, steps: seq<Step>, m: Machine, n: nat, s: Step, job: Job, keyOf: KeyOf)
    requires ReachesAfter(start, steps, m, n, job, keyOf) && Legal(m, s, job, keyOf)
    ensures ReachesAfter(start, steps + [s], Do(m, s, job, keyOf), n + (if s == Abort && InFlight(m) then 1 else 0), job, keyOf)
  {
    Then(start, steps, m, s, job, keyOf);
    assert (steps + [s])[..|steps|] == steps;
  }

  lemma BeginAndRead(start: Objects, steps: seq<Step>, objects: Objects, n: nat, listing: seq<string>, k: string, row: Row,
                     job: Job, keyOf: KeyOf)
    requires ReachesAfter(start, steps, Machine(objects, Idle), n, job, keyOf) && job.minFiles == 1
    requires IsListing(objects, job.prefix, listing) && Sources(listing) == [k] && k in objects && objects[k] == [row]
    ensures ReachesAfter(start, steps + [Begin(listing)] + [Read], Machine(objects, Reading([k], 1, [row])), n, job, keyOf)
  {
    OneStep(start, steps, Machine(objects, Idle), n, Begin(listing), job, keyOf);
    OneStep(start, steps + [Begin(listing)], Machine(objects, Reading([k], 0, [])), n, Read, job, keyOf);
    assert [] + [row] == [row];
  }

  lemma PutAndAbort(start: Objects, steps: seq<Step>, objects: Objects, n: nat, k: string, row: Row, suffix: string,
                    job: Job, keyOf: KeyOf)
    requires ReachesAfter(start, steps, Machine(objects, Reading([k], 1, [row])), n, job, keyOf)
    requires Free(suffix, '/') && CompactedKey(job.prefix, suffix) !in objects
    ensures ReachesAfter(start, steps + [Put(suffix, 1)] + [Abort],
                         Machine(objects[CompactedKey(job.prefix, suffix) := [row]], Idle), n + 1, job, keyOf)
  {
    var m := Machine(objects, Reading([k], 1, [row]));
    OneStep(start, steps, m, n, Put(suffix, 1), job, keyOf);
    assert Truncate([row], 1) == [row];
    OneStep(start, steps + [Put(suffix, 1)], Do(m, Put(suffix, 1), job, keyOf), n, Abort, job, keyOf);
  }

  lemma AttemptBreaks(start: Objects, steps: seq<Step>, objects: Objects, n: nat, listing: seq<string>, k: string, row: Row,
                      suffix: string, job: Job, keyOf: KeyOf)
    requires ReachesAfter(start, steps, Machine(objects, Idle), n, job, keyOf) && job.minFiles == 1
    requires IsListing(objects, job.prefix, listing) && Sources(listing) == [k] && k in objects && objects[k] == [row]
    requires Free(suffix, '/') && CompactedKey(job.prefix, suffix) !in objects
    ensures ReachesAfter(start, steps + [Begin(listing), Read, Put(suffix, 1), Abort],
                         Machine(objects[CompactedKey(job.prefix, suffix) := [row]], Idle), n + 1, job, keyOf)
  {
    BeginAndRead(start, steps, objects, n, listing, k, row, job, keyOf);
    PutAndAbort(start, steps + [Begin(listing)] + [Read], objects, n, k, row, suffix, job, keyOf);
    assert steps + [Begin(listing), Read, Put(suffix, 1), Abort]
        == steps + [Begin(listing)] + [Read] + [Put(suffix, 1)] + [Abort];
  }

  lemma {:induction false} BrokenIsQuiet(prefix: string, k: string, n: nat)
    ensures Quiet(Broken(prefix, k, n))
  {
    if n > 0 {
      BrokenIsQuiet(prefix, k, n - 1);
    }
  }

  lemma BrokenOnce(prefix: string, k: string, row: Row, n: nat, keyOf: KeyOf)
    requires IsPrefix(prefix) && IsSource(k) && prefix <= k
    requires ReachesAfter(map[k := [row]], Broken(prefix, k, n), Machine(Copies(prefix, k, row, n), Idle), n, Job(prefix, 1), keyOf)
    ensures ReachesAfter(map[k := [row]], Broken(prefix, k, n) + BrokenAttempt(prefix, k, n),
                         Machine(Copies(prefix, k, row, n)[NthKey(prefix, n) := [row]], Idle), n + 1, Job(prefix, 1), keyOf)
  {
    CopyKeys(prefix, k, row, n, n);
    CopySources(prefix, k, n);
    OnlySource(CopyList(prefix, k, n), k);
    CopyTotal(prefix, k, row, n);
    NthKeyNew(prefix, n, 0);
    AttemptBreaks(map[k := [row]], Broken(prefix, k, n), Copies(prefix, k, row, n), n, CopyList(prefix, k, n), k, row,
                  Decimal(n), Job(prefix, 1), keyOf);
  }

  lemma {:induction false} BrokenReaches(prefix: string, k: string, row: Row, n: nat, keyOf: KeyOf)
    requires IsPrefix(prefix) && IsSource(k) && prefix <= k
    ensures ReachesAfter(map[k := [row]], Broken(prefix, k, n), Machine(Copies(prefix, k, row, n), Idle), n, Job(prefix, 1), keyOf)
  {
    if n > 0 {
      BrokenReaches(prefix, k, row, n - 1, keyOf);
      BrokenOnce(prefix, k, row, n - 1, keyOf);
    }
  }

  /** For every n there is a run with n interrupted attempts that leaves exactly n extra copies of a
      source row: the bound is reached. */
  lemma CopiesReached(prefix: string, k: string, row: Row, n: nat, keyOf: KeyOf)
    requires IsPrefix(prefix) && IsSource(k) && prefix <= k
    ensures var start, steps, job := map[k := [row]], Broken(prefix, k, n), Job(prefix, 1);
            var m := Run(Machine(start, Idle), steps, job, keyOf);
            Quiet(steps) && LegalRun(Machine(start, Idle), steps, job, keyOf) && m.pc == Idle
            && Interrupted(Machine(start, Idle), steps, job, keyOf) == n
            && Total(m.objects)[row] == Total(start)[row] + n * Total(Plain(start))[row] == 1 + n
  {
    BrokenReaches(prefix, k, row, n, keyOf);
    BrokenIsQuiet(prefix, k, n);
    CopyTotal(prefix, k, row, n);
    CopyTotal(prefix, k, row, 0);
    assert Plain(map[k := [row]]) == map[k := [row]];
  }
}
