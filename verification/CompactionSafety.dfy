/** What compaction keeps while writers put rows and crashes abort it between any two actions. */
module CompactionSafety {
  import opened Common
  import opened Text
  import opened Compaction

  // ---------------------------------------------------------------- the invariant

  ghost predicate Represents(f: File, k: string, keyOf: KeyOf) {
    exists r :: r in f && keyOf(r) == k
  }

  /** Some file of the partition holds a row that belongs at `k`. */
  ghost predicate Covered(objects: Objects, prefix: string, k: string, keyOf: KeyOf) {
    exists f :: f in objects && prefix <= f && Represents(objects[f], k, keyOf)
  }

  /** A file that is not a compacted one holds rows of its own key only, and at least one. */
  ghost predicate Homed(objects: Objects, keyOf: KeyOf) {
    forall k :: k in objects && IsSource(k) ==> objects[k] != [] && AllAt(objects[k], k, keyOf)
  }

  ghost predicate AllAt(f: File, k: string, keyOf: KeyOf) {
    forall r :: r in f ==> keyOf(r) == k
  }

  ghost predicate SourcesIn(objects: Objects, prefix: string, keys: seq<string>) {
    forall k :: k in keys ==> k in objects && IsSource(k) && prefix <= k
  }

  /** The rows of `f` come from `keys`, and every one of `keys` is represented. */
  ghost predicate Holds(f: File, keys: seq<string>, keyOf: KeyOf) {
    (forall k :: k in keys ==> Represents(f, k, keyOf)) && forall r :: r in f ==> keyOf(r) in keys
  }

  ghost predicate Merged(objects: Objects, prefix: string, ckey: string) {
    ckey in objects && prefix <= ckey && !IsSource(ckey)
  }

  ghost predicate Safe(m: Machine, job: Job, keyOf: KeyOf) {
    Homed(m.objects, keyOf) &&
    match m.pc
    case Idle => true
    case Completed => true
    case Reading(keys, next, combined) =>
      next <= |keys| && SourcesIn(m.objects, job.prefix, keys) && Holds(combined, keys[..next], keyOf)
    case Written(keys, ckey, combined) =>
      SourcesIn(m.objects, job.prefix, keys) && Holds(combined, keys, keyOf)
      && Merged(m.objects, job.prefix, ckey) && m.objects[ckey] <= combined
    case Deleting(keys, next, ckey) =>
      next <= |keys| && (forall k :: k in keys ==> IsSource(k))
      && Merged(m.objects, job.prefix, ckey) && Holds(m.objects[ckey], keys, keyOf)
  }

  ghost predicate KeepsCover(before: Objects, after: Objects, prefix: string, keyOf: KeyOf) {
    forall k :: Covered(before, prefix, k, keyOf) ==> Covered(after, prefix, k, keyOf)
  }

  /** Replacing or removing file `gone` keeps the cover if what it held is covered afterwards. */
  lemma CoverKept(before: Objects, after: Objects, prefix: string, gone: string, keyOf: KeyOf)
    requires forall f :: f in before && f != gone ==> f in after && after[f] == before[f]
    requires gone in before && prefix <= gone ==>
               forall r :: r in before[gone] ==> Covered(after, prefix, keyOf(r), keyOf)
    ensures KeepsCover(before, after, prefix, keyOf)
  {
    forall k | Covered(before, prefix, k, keyOf)
      ensures Covered(after, prefix, k, keyOf)
    {
      var f :| f in before && prefix <= f && Represents(before[f], k, keyOf);
      if f != gone {
        assert f in after && Represents(after[f], k, keyOf);
      }
    }
  }

  lemma WriteSafe(m: Machine, row: Row, job: Job, keyOf: KeyOf)
    requires Safe(m, job, keyOf) && IsSource(keyOf(row))
    ensures var m' := Do(m, Write(row), job, keyOf);
            Safe(m', job, keyOf) && KeepsCover(m.objects, m'.objects, job.prefix, keyOf)
  {
    var m' := Do(m, Write(row), job, keyOf);
    var k := keyOf(row);
    assert m'.objects[k] == [row];
    if job.prefix <= k {
      assert row in m'.objects[k] && Represents(m'.objects[k], k, keyOf);
      assert Covered(m'.objects, job.prefix, k, keyOf);
    }
    CoverKept(m.objects, m'.objects, job.prefix, k, keyOf);
  }

  lemma ReadSafe(m: Machine, job: Job, keyOf: KeyOf)
    requires Safe(m, job, keyOf)
    ensures Safe(Do(m, Read, job, keyOf), job, keyOf)
  {
    if m.pc.Reading? && m.pc.next < |m.pc.keys| {
      var keys, next, combined := m.pc.keys, m.pc.next, m.pc.combined;
      var k := keys[next];
      var all := combined + m.objects[k];
      var r := m.objects[k][0];
      assert keys[..next + 1] == keys[..next] + [k];
      assert r in all && Represents(all, k, keyOf);
      forall k' | k' in keys[..next] ensures Represents(all, k', keyOf) {
        var r' :| r' in combined && keyOf(r') == k';
        assert r' in all;
      }
      assert Holds(all, keys[..next + 1], keyOf);
    }
  }

  lemma PutSafe(m: Machine, suffix: string, stored: nat, job: Job, keyOf: KeyOf)
    requires Safe(m, job, keyOf) && IsPrefix(job.prefix) && Legal(m, Put(suffix, stored), job, keyOf)
    ensures var m' := Do(m, Put(suffix, stored), job, keyOf);
            Safe(m', job, keyOf) && KeepsCover(m.objects, m'.objects, job.prefix, keyOf)
  {
    CompactedIsNotSource(job.prefix, suffix);
    var m' := Do(m, Put(suffix, stored), job, keyOf);
    CoverKept(m.objects, m'.objects, job.prefix, CompactedKey(job.prefix, suffix), keyOf);
    if m.pc.Reading? && m.pc.next == |m.pc.keys| {
      assert m.pc.keys[..m.pc.next] == m.pc.keys;
    }
  }

  /** While the sources are still there, whatever came from them is covered by them. */
  lemma SourcesCover(objects: Objects, prefix: string, keys: seq<string>, gone: string, keyOf: KeyOf)
    requires Homed(objects, keyOf) && SourcesIn(objects, prefix, keys) && !IsSource(gone)
    ensures forall k :: k in keys ==> Covered(objects - {gone}, prefix, k, keyOf)
  {
    forall k | k in keys ensures Covered(objects - {gone}, prefix, k, keyOf) {
      assert k in objects - {gone};
      var r := (objects - {gone})[k][0];
      assert r in objects[k] && keyOf(r) == k;
      assert Represents((objects - {gone})[k], k, keyOf);
    }
  }

  lemma ValidateSafe(m: Machine, job: Job, keyOf: KeyOf)
    requires Safe(m, job, keyOf)
    ensures var m' := Do(m, Validate, job, keyOf);
            Safe(m', job, keyOf) && KeepsCover(m.objects, m'.objects, job.prefix, keyOf)
  {
    if m.pc.Written? {
      var ckey := m.pc.ckey;
      SourcesCover(m.objects, job.prefix, m.pc.keys, ckey, keyOf);
      CoverKept(m.objects, m.objects - {ckey}, job.prefix, ckey, keyOf);
    }
  }

  lemma DeleteSafe(m: Machine, job: Job, keyOf: KeyOf)
    requires Safe(m, job, keyOf)
    ensures var m' := Do(m, Delete, job, keyOf);
            Safe(m', job, keyOf) && KeepsCover(m.objects, m'.objects, job.prefix, keyOf)
  {
    if m.pc.Deleting? && m.pc.next < |m.pc.keys| {
      var gone, ckey := m.pc.keys[m.pc.next], m.pc.ckey;
      var after := m.objects - {gone};
      assert ckey in after && after[ckey] == m.objects[ckey] && Represents(after[ckey], gone, keyOf);
      assert Covered(after, job.prefix, gone, keyOf);
      CoverKept(m.objects, after, job.prefix, gone, keyOf);
    }
  }

  lemma StepSafe(m: Machine, s: Step, job: Job, keyOf: KeyOf)
    requires Safe(m, job, keyOf) && IsPrefix(job.prefix) && Legal(m, s, job, keyOf)
    ensures var m' := Do(m, s, job, keyOf);
            Safe(m', job, keyOf) && KeepsCover(m.objects, m'.objects, job.prefix, keyOf)
  {
    match s
    case Begin(listing) =>
    case Read => ReadSafe(m, job, keyOf);
    case Put(suffix, stored) => PutSafe(m, suffix, stored, job, keyOf);
    case Validate => ValidateSafe(m, job, keyOf);
    case Delete => DeleteSafe(m, job, keyOf);
    case Abort =>
    case Write(row) => WriteSafe(m, row, job, keyOf);
  }

  lemma {:induction false} RunSafe(m: Machine, steps: seq<Step>, job: Job, keyOf: KeyOf)
    requires Safe(m, job, keyOf) && IsPrefix(job.prefix) && LegalRun(m, steps, job, keyOf)
    ensures Safe(Run(m, steps, job, keyOf), job, keyOf)
  {
    if steps != [] {
      var init := steps[..|steps| - 1];
      RunSafe(m, init, job, keyOf);
      StepSafe(Run(m, init, job, keyOf), steps[|steps| - 1], job, keyOf);
    }
  }

  lemma {:induction false} StaysCovered(m: Machine, steps: seq<Step>, i: nat, k: string, job: Job, keyOf: KeyOf)
    requires Safe(m, job, keyOf) && IsPrefix(job.prefix) && LegalRun(m, steps, job, keyOf) && i <= |steps|
    requires Covered(Run(m, steps[..i], job, keyOf).objects, job.prefix, k, keyOf)
    ensures Covered(Run(m, steps, job, keyOf).objects, job.prefix, k, keyOf)
  {
    if i == |steps| {
      assert steps[..i] == steps;
    } else {
      var init := steps[..|steps| - 1];
      assert init[..i] == steps[..i];
      StaysCovered(m, init, i, k, job, keyOf);
      RunSafe(m, init, job, keyOf);
      StepSafe(Run(m, init, job, keyOf), steps[|steps| - 1], job, keyOf);
    }
  }

  // ---------------------------------------------------------------- what a partition holds

  ghost predicate HasEvent(objects: Objects, prefix: string, id: string) {
    exists f, i :: f in objects && prefix <= f && 0 <= i < |objects[f]| && objects[f][i].eventId == id
  }

  ghost predicate HasRow(objects: Objects, prefix: string, row: Row) {
    exists f :: f in objects && prefix <= f && row in objects[f]
  }

  // ---------------------------------------------------------------- the rows that occur

  /** The rows in the store, and those being merged, are among `rows`. */
  ghost predicate RowsAmong(m: Machine, rows: iset<Row>) {
    (forall f :: f in m.objects ==> forall r :: r in m.objects[f] ==> r in rows)
    && (m.pc.Reading? || m.pc.Written? ==> forall r :: r in m.pc.combined ==> r in rows)
  }

  ghost predicate WritesAmong(steps: seq<Step>, rows: iset<Row>) {
    forall i :: 0 <= i < |steps| && steps[i].Write? ==> steps[i].row in rows
  }

  /** Exactly the rows that occur: those of the starting store and those the writers put. */
  ghost function Occurring(m: Machine, steps: seq<Step>): iset<Row> {
    iset r | (exists f :: f in m.objects && r in m.objects[f]) || Write(r) in steps
  }

  lemma OccurringSuffice(m: Machine, steps: seq<Step>)
    requires m.pc == Idle
    ensures RowsAmong(m, Occurring(m, steps)) && WritesAmong(steps, Occurring(m, steps))
  {
  }

  lemma StepKeepsRows(m: Machine, s: Step, job: Job, keyOf: KeyOf, rows: iset<Row>)
    requires RowsAmong(m, rows) && (s.Write? ==> s.row in rows)
    ensures RowsAmong(Do(m, s, job, keyOf), rows)
  {
  }

  lemma {:induction false} RunKeepsRows(m: Machine, steps: seq<Step>, job: Job, keyOf: KeyOf, rows: iset<Row>)
    requires RowsAmong(m, rows) && WritesAmong(steps, rows)
    ensures RowsAmong(Run(m, steps, job, keyOf), rows)
  {
    if steps != [] {
      var n := |steps| - 1;
      RunKeepsRows(m, steps[..n], job, keyOf, rows);
      StepKeepsRows(Run(m, steps[..n], job, keyOf), steps[n], job, keyOf, rows);
    }
  }

  // ---------------------------------------------------------------- no event disappears

  /** Among `rows`, the object key tells events apart. */
  ghost predicate KeyDeterminesEvent(keyOf: KeyOf, rows: iset<Row>) {
    forall a, b :: a in rows && b in rows && keyOf(a) == keyOf(b) ==> a.eventId == b.eventId
  }

  /** The row at `k` once covered is covered at the end, by a row that occurs. */
  lemma RowStaysCovered(m: Machine, steps: seq<Step>, i: nat, row: Row, job: Job, keyOf: KeyOf, rows: iset<Row>)
      returns (r: Row)
    requires IsPrefix(job.prefix) && m.pc == Idle && Homed(m.objects, keyOf)
    requires LegalRun(m, steps, job, keyOf) && i <= |steps| && RowsAmong(m, rows) && WritesAmong(steps, rows)
    requires HasRow(Run(m, steps[..i], job, keyOf).objects, job.prefix, row)
    ensures row in rows && r in rows && keyOf(r) == keyOf(row)
    ensures HasRow(Run(m, steps, job, keyOf).objects, job.prefix, r)
  {
    assert WritesAmong(steps[..i], rows);
    RunKeepsRows(m, steps[..i], job, keyOf, rows);
    RunKeepsRows(m, steps, job, keyOf, rows);
    var before: Objects, after: Objects := Run(m, steps[..i], job, keyOf).objects, Run(m, steps, job, keyOf).objects;
    var f :| f in before && job.prefix <= f && row in before[f];
    assert Represents(before[f], keyOf(row), keyOf);
    assert Covered(before, job.prefix, keyOf(row), keyOf);
    StaysCovered(m, steps, i, keyOf(row), job, keyOf);
    var g :| g in after && job.prefix <= g && Represents(after[g], keyOf(row), keyOf);
    r :| r in after[g] && keyOf(r) == keyOf(row);
  }

  /** An event id that is in the partition at any moment of a run, whether from the start or put by
      a writer, is there ever after: through every interrupted attempt, retry and rewrite. It is
      enough that the keys of the rows that occur tell their events apart. */
  lemma NoEventDisappears(m: Machine, steps: seq<Step>, i: nat, id: string, job: Job, keyOf: KeyOf, rows: iset<Row>)
    requires IsPrefix(job.prefix) && m.pc == Idle && Homed(m.objects, keyOf)
    requires LegalRun(m, steps, job, keyOf) && i <= |steps|
    requires RowsAmong(m, rows) && WritesAmong(steps, rows) && KeyDeterminesEvent(keyOf, rows)
    requires HasEvent(Run(m, steps[..i], job, keyOf).objects, job.prefix, id)
    ensures HasEvent(Run(m, steps, job, keyOf).objects, job.prefix, id)
  {
    var before: Objects, after: Objects := Run(m, steps[..i], job, keyOf).objects, Run(m, steps, job, keyOf).objects;
    var f, j :| f in before && job.prefix <= f && 0 <= j < |before[f]| && before[f][j].eventId == id;
    var r := RowStaysCovered(m, steps, i, before[f][j], job, keyOf, rows);
    var g :| g in after && job.prefix <= g && r in after[g];
    var x :| 0 <= x < |after[g]| && after[g][x] == r;
    assert after[g][x].eventId == id;
  }

  /** No run from an empty store, with writers that put `rows`, ever loses an event. */
  ghost predicate NothingLost(job: Job, keyOf: KeyOf, rows: iset<Row>) {
    forall steps: seq<Step>, i: nat, id: string ::
      LegalRun(Machine(map[], Idle), steps, job, keyOf) && WritesAmong(steps, rows) && i <= |steps|
      && HasEvent(Run(Machine(map[], Idle), steps[..i], job, keyOf).objects, job.prefix, id) ==>
        HasEvent(Run(Machine(map[], Idle), steps, job, keyOf).objects, job.prefix, id)
  }

  /** The condition on the keys is exact. */
  lemma NothingLostIff(job: Job, keyOf: KeyOf, rows: iset<Row>)
    requires IsPrefix(job.prefix)
    requires forall r :: r in rows ==> job.prefix <= keyOf(r) && IsSource(keyOf(r))
    ensures NothingLost(job, keyOf, rows) <==> KeyDeterminesEvent(keyOf, rows)
  {
    var m := Machine(map[], Idle);
    if KeyDeterminesEvent(keyOf, rows) {
      forall steps: seq<Step>, i: nat, id: string |
        LegalRun(m, steps, job, keyOf) && WritesAmong(steps, rows) && i <= |steps|
        && HasEvent(Run(m, steps[..i], job, keyOf).objects, job.prefix, id)
        ensures HasEvent(Run(m, steps, job, keyOf).objects, job.prefix, id)
      {
        NoEventDisappears(m, steps, i, id, job, keyOf, rows);
      }
    } else {
      var a, b :| a in rows && b in rows && keyOf(a) == keyOf(b) && a.eventId != b.eventId;
      OverwriteLoses(job, keyOf, a, b);
      var steps := [Write(a), Write(b)];
      assert WritesAmong(steps, rows);
      assert HasEvent(Run(m, steps[..1], job, keyOf).objects, job.prefix, a.eventId);
      assert !HasEvent(Run(m, steps, job, keyOf).objects, job.prefix, a.eventId);
    }
  }

  /** Two events with one key: the second write replaces the first. */
  lemma OverwriteLoses(job: Job, keyOf: KeyOf, a: Row, b: Row)
    requires keyOf(a) == keyOf(b) && a.eventId != b.eventId && job.prefix <= keyOf(a) && IsSource(keyOf(a))
    ensures var m, steps := Machine(map[], Idle), [Write(a), Write(b)];
            LegalRun(m, steps, job, keyOf)
            && HasEvent(Run(m, steps[..1], job, keyOf).objects, job.prefix, a.eventId)
            && !HasEvent(Run(m, steps, job, keyOf).objects, job.prefix, a.eventId)
  {
    var m, steps, k := Machine(map[], Idle), [Write(a), Write(b)], keyOf(a);
    assert steps[..1] == [Write(a)] && [Write(a)][..0] == [];
    assert Run(m, [], job, keyOf) == m && LegalRun(m, [], job, keyOf);
    assert Run(m, steps[..1], job, keyOf).objects == map[k := [a]];
    assert Run(m, steps, job, keyOf).objects == map[k := [b]];
    assert map[k := [a]][k][0] == a;
  }

  /** When writers only ever repeat the row that belongs at a key, no row disappears either. */
  lemma NoRowDisappearsUnderReplay(m: Machine, steps: seq<Step>, i: nat, row: Row, content: string -> Row,
                                   job: Job, keyOf: KeyOf)
    requires IsPrefix(job.prefix) && m.pc == Idle && Homed(m.objects, keyOf)
    requires LegalRun(m, steps, job, keyOf) && i <= |steps|
    requires forall r :: r in Occurring(m, steps) ==> r == content(keyOf(r))
    requires HasRow(Run(m, steps[..i], job, keyOf).objects, job.prefix, row)
    ensures HasRow(Run(m, steps, job, keyOf).objects, job.prefix, row)
  {
    OccurringSuffice(m, steps);
    var r := RowStaysCovered(m, steps, i, row, job, keyOf, Occurring(m, steps));
    assert row == content(keyOf(row)) == r;
  }
}
