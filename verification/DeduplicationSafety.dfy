/** What deduplication guarantees for one batch and for a stream cut into batches. */
module DeduplicationSafety {
  import opened Common
  import opened Events
  import opened Deduplication

  // ---------------------------------------------------------------- counting the outputs

  function Both(a: seq<bool>, b: seq<bool>): (c: seq<bool>)
    requires |a| == |b|
    ensures |c| == |a| && forall i :: 0 <= i < |c| ==> c[i] == (a[i] && b[i])
  {
    seq(|a|, i requires 0 <= i < |a| => a[i] && b[i])
  }

  lemma PickStep<T>(rows: seq<T>, marks: seq<bool>, e: T)
    requires |marks| == |rows| && rows != []
    ensures var n := |rows| - 1;
            multiset(Pick(rows, marks))[e]
            == multiset(Pick(rows[..n], marks[..n]))[e] + (if marks[n] && rows[n] == e then 1 else 0)
  {
    var n := |rows| - 1;
    var before := Pick(rows[..n], marks[..n]);
    if marks[n] {
      assert Pick(rows, marks) == before + [rows[n]];
      CountAppend(before, rows[n], e);
    } else {
      assert Pick(rows, marks) == before + [];
      assert before + [] == before;
    }
  }

  /** How many marked rows equal `e`. */
  function Marked<T(==)>(rows: seq<T>, marks: seq<bool>, e: T): nat
    requires |marks| == |rows|
  {
    if rows == [] then 0
    else
      var n := |rows| - 1;
      Marked(rows[..n], marks[..n], e) + (if marks[n] && rows[n] == e then 1 else 0)
  }

  lemma {:induction false} PickCounts<T>(rows: seq<T>, marks: seq<bool>, e: T)
    requires |marks| == |rows|
    ensures multiset(Pick(rows, marks))[e] == Marked(rows, marks, e)
  {
    if rows != [] {
      PickCounts(rows[..|rows| - 1], marks[..|rows| - 1], e);
      PickStep(rows, marks, e);
    }
  }

  lemma {:induction false} MarkedAddUp<T>(rows: seq<T>, a: seq<bool>, b: seq<bool>, neither: seq<bool>, both: seq<bool>, e: T)
    requires |a| == |b| == |neither| == |both| == |rows|
    requires forall i :: 0 <= i < |rows| ==> neither[i] == (!a[i] && !b[i]) && both[i] == (a[i] && b[i])
    ensures Marked(rows, neither, e) + Marked(rows, a, e) + Marked(rows, b, e)
         == multiset(rows)[e] + Marked(rows, both, e)
  {
    if rows != [] {
      var n := |rows| - 1;
      MarkedAddUp(rows[..n], a[..n], b[..n], neither[..n], both[..n], e);
      assert rows == rows[..n] + [rows[n]];
      CountAppend(rows[..n], rows[n], e);
    }
  }

  function Outputs(r: DeduplicationResult): multiset<Event> {
    multiset(r.deduplicated) + multiset(r.duplicates) + multiset(r.conflicts)
  }

  /** The outputs hold the batch, and once more the rows that are both duplicate and conflict. */
  lemma SplitConserves(rows: seq<Event>, flags: seq<bool>, fp: Fingerprint)
    requires |flags| == |rows|
    ensures Outputs(Split(rows, flags, fp))
         == multiset(rows) + multiset(Pick(rows, Both(DuplicateMarks(rows, flags, fp), ConflictMarks(rows, fp))))
  {
    var a, b := DuplicateMarks(rows, flags, fp), ConflictMarks(rows, fp);
    var r := Split(rows, flags, fp);
    var twice := Pick(rows, Both(a, b));
    forall e ensures Outputs(r)[e] == (multiset(rows) + multiset(twice))[e] {
      PickCounts(rows, Neither(a, b), e);
      PickCounts(rows, Both(a, b), e);
      PickCounts(rows, a, e);
      PickCounts(rows, b, e);
      MarkedAddUp(rows, a, b, Neither(a, b), Both(a, b), e);
    }
  }

  lemma {:induction false} PickNothing(rows: seq<Event>, marks: seq<bool>)
    requires |marks| == |rows|
    ensures Pick(rows, marks) == [] <==> forall i :: 0 <= i < |rows| ==> !marks[i]
  {
    if rows != [] {
      var n := |rows| - 1;
      PickNothing(rows[..n], marks[..n]);
    }
  }

  /** A row of a conflicting group that repeats the hash recorded for its event. */
  ghost predicate CountedTwice(seen: map<string, int>, rows: seq<Event>, i: nat, fp: Fingerprint)
    requires i < |rows|
  {
    InConflict(rows, rows[i], fp) && Recorded(seen, rows[..i], rows[i].eventId, fp) == Some(fp(rows[i]))
  }

  /** Every row is in an output, and the outputs add up to the batch exactly when no row of a
      conflicting group repeats a recorded hash: those come out as duplicate and as conflict. */
  lemma OutputsAddUpIff(seen: map<string, int>, rows: seq<Event>, fp: Fingerprint)
    ensures var r := DeduplicateWith(seen, rows, fp).1;
            multiset(rows) <= Outputs(r)
            && (Outputs(r) == multiset(rows) <==> forall i :: 0 <= i < |rows| ==> !CountedTwice(seen, rows, i, fp))
  {
    var flags := CheckRows(seen, rows, fp).flags;
    var both := Both(DuplicateMarks(rows, flags, fp), ConflictMarks(rows, fp));
    SplitConserves(rows, flags, fp);
    PickNothing(rows, both);
    forall i | 0 <= i < |rows| ensures both[i] <==> CountedTwice(seen, rows, i, fp) {
      FlagIff(seen, rows, i, fp);
    }
    NothingAdded(multiset(rows), Pick(rows, both));
  }

  lemma NothingAdded(m: multiset<Event>, more: seq<Event>)
    ensures m + multiset(more) == m <==> more == []
  {
    if more != [] {
      assert (m + multiset(more))[more[0]] > m[more[0]];
    }
  }

  // ---------------------------------------------------------------- a batch without state

  /** The rows of one event, in order. */
  function Only(rows: seq<Event>, id: string): seq<Event> {
    if rows == [] then []
    else
      var n := |rows| - 1;
      Only(rows[..n], id) + (if rows[n].eventId == id then [rows[n]] else [])
  }

  lemma {:induction false} OnlyEmpty(rows: seq<Event>, id: string)
    ensures Only(rows, id) == [] <==> !Has(rows, id)
  {
    if rows != [] {
      var init, r := rows[..|rows| - 1], rows[|rows| - 1];
      OnlyEmpty(init, id);
      assert rows == init + [r];
      HasConcat(init, [r], id);
      assert r in [r];
      assert Only(rows, id) == Only(init, id) + (if r.eventId == id then [r] else []);
    }
  }

  lemma OnlyAppend(a: seq<Event>, e: Event, id: string)
    ensures Only(a + [e], id) == Only(a, id) + (if e.eventId == id then [e] else [])
  {
    assert (a + [e])[..|a|] == a;
  }

  /** The rows of one event that are picked, one row at a time. */
  lemma OnlyPick(rows: seq<Event>, marks: seq<bool>, id: string)
    requires |marks| == |rows| && rows != []
    ensures var n := |rows| - 1;
            Only(Pick(rows, marks), id)
            == Only(Pick(rows[..n], marks[..n]), id) + (if marks[n] && rows[n].eventId == id then [rows[n]] else [])
  {
    var n := |rows| - 1;
    var before := Pick(rows[..n], marks[..n]);
    if marks[n] {
      assert Pick(rows, marks) == before + [rows[n]];
      OnlyAppend(before, rows[n], id);
    } else {
      assert Pick(rows, marks) == before + [];
      assert before + [] == before;
    }
  }

  /** All rows of the event are picked, or none. */
  lemma {:induction false} PickWhole(rows: seq<Event>, marks: seq<bool>, id: string, all: bool)
    requires |marks| == |rows| && forall i :: 0 <= i < |rows| && rows[i].eventId == id ==> marks[i] == all
    ensures Only(Pick(rows, marks), id) == if all then Only(rows, id) else []
  {
    if rows != [] {
      var n := |rows| - 1;
      PickWhole(rows[..n], marks[..n], id, all);
      OnlyPick(rows, marks, id);
    }
  }

  /** The first row of an event, or the others. */
  function FirstOr(only: seq<Event>, first: bool): seq<Event> {
    if only == [] then [] else if first then only[..1] else only[1..]
  }

  lemma FirstOrAppend(before: seq<Event>, e: Event, first: bool)
    ensures FirstOr(before + [e], first) == FirstOr(before, first) + (if first == (before == []) then [e] else [])
  {
    if before != [] {
      assert (before + [e])[..1] == before[..1] && (before + [e])[1..] == before[1..] + [e];
    }
  }

  lemma {:induction false} PickFirst(rows: seq<Event>, marks: seq<bool>, id: string, first: bool)
    requires |marks| == |rows|
    requires forall i :: 0 <= i < |rows| && rows[i].eventId == id ==> (marks[i] <==> first != Has(rows[..i], id))
    ensures Only(Pick(rows, marks), id) == FirstOr(Only(rows, id), first)
  {
    if rows != [] {
      var n := |rows| - 1;
      forall i | 0 <= i < n ensures rows[..n][..i] == rows[..i] {
      }
      PickFirst(rows[..n], marks[..n], id, first);
      OnlyPick(rows, marks, id);
      OnlyEmpty(rows[..n], id);
      FirstOrAppend(Only(rows[..n], id), rows[n], first);
    }
  }

  ghost predicate Clashing(rows: seq<Event>, id: string, fp: Fingerprint) {
    exists s, t :: s in rows && t in rows && s.eventId == t.eventId == id && fp(s) != fp(t)
  }

  lemma ClashingIff(rows: seq<Event>, r: Event, fp: Fingerprint)
    requires r in rows
    ensures InConflict(rows, r, fp) <==> Clashing(rows, r.eventId, fp)
  {
    if Clashing(rows, r.eventId, fp) {
      var s, t :| s in rows && t in rows && s.eventId == t.eventId == r.eventId && fp(s) != fp(t);
      assert fp(s) != fp(r) || fp(t) != fp(r);
    }
  }

  /** Without a state a clashing group goes whole to the conflicts. */
  lemma SplitOfClash(rows: seq<Event>, fp: Fingerprint, id: string)
    requires Clashing(rows, id, fp)
    ensures var r := Split(rows, NoFlags(|rows|), fp);
            Only(r.conflicts, id) == Only(rows, id) && Only(r.deduplicated, id) == [] && Only(r.duplicates, id) == []
  {
    var a, b := DuplicateMarks(rows, NoFlags(|rows|), fp), ConflictMarks(rows, fp);
    forall i | 0 <= i < |rows| && rows[i].eventId == id ensures b[i] && !a[i] {
      ClashingIff(rows, rows[i], fp);
    }
    PickWhole(rows, b, id, true);
    PickWhole(rows, a, id, false);
    PickWhole(rows, Neither(a, b), id, false);
  }

  /** Any other group leaves its first row in the output, and the rest in the duplicates. */
  lemma SplitOfGroup(rows: seq<Event>, fp: Fingerprint, id: string)
    requires !Clashing(rows, id, fp)
    ensures var r, only := Split(rows, NoFlags(|rows|), fp), Only(rows, id);
            Only(r.conflicts, id) == [] && Only(r.deduplicated, id) == FirstOr(only, true)
            && Only(r.duplicates, id) == FirstOr(only, false)
  {
    var a, b := DuplicateMarks(rows, NoFlags(|rows|), fp), ConflictMarks(rows, fp);
    forall i | 0 <= i < |rows| && rows[i].eventId == id ensures !b[i] && a[i] == Has(rows[..i], id) {
      ClashingIff(rows, rows[i], fp);
      RepeatedIff(rows, i);
    }
    PickWhole(rows, b, id, false);
    PickFirst(rows, Neither(a, b), id, true);
    PickFirst(rows, a, id, false);
  }

  lemma SplitPartitions(rows: seq<Event>, fp: Fingerprint)
    ensures var r := Split(rows, NoFlags(|rows|), fp);
            Outputs(r) == multiset(rows) && r.TotalInputCount() == |rows|
  {
    var r := Split(rows, NoFlags(|rows|), fp);
    SplitConserves(rows, NoFlags(|rows|), fp);
    PickNothing(rows, Both(DuplicateMarks(rows, NoFlags(|rows|), fp), ConflictMarks(rows, fp)));
    assert |Outputs(r)| == r.TotalInputCount();
  }

  // ---------------------------------------------------------------- a stream in batches

  /** The state after the batches, and all the rows they let through. */
  function Stream(seen: map<string, int>, batches: seq<seq<Event>>, fp: Fingerprint): (map<string, int>, seq<Event>) {
    if batches == [] then (seen, [])
    else
      var n := |batches| - 1;
      var (s, out) := Stream(seen, batches[..n], fp);
      var (s', r) := DeduplicateWith(s, batches[n], fp);
      (s', out + r.deduplicated)
  }

  function Concat(batches: seq<seq<Event>>): seq<Event> {
    if batches == [] then [] else Concat(batches[..|batches| - 1]) + batches[|batches| - 1]
  }

  predicate Has(rows: seq<Event>, id: string) {
    exists e :: e in rows && e.eventId == id
  }

  /** The first row of every event that is not in `seen`. */
  function FirstOccurrences(seen: map<string, int>, rows: seq<Event>): seq<Event> {
    if rows == [] then []
    else
      var init, r := rows[..|rows| - 1], rows[|rows| - 1];
      FirstOccurrences(seen, init) + (if r.eventId in seen || Has(init, r.eventId) then [] else [r])
  }

  /** One event, one hash. */
  ghost predicate ConsistentWith(seen: map<string, int>, rows: seq<Event>, fp: Fingerprint) {
    (forall e :: e in rows && e.eventId in seen ==> seen[e.eventId] == fp(e))
    && forall a, b :: a in rows && b in rows && a.eventId == b.eventId ==> fp(a) == fp(b)
  }

  lemma {:induction false} RecordedIs(seen: map<string, int>, rows: seq<Event>, id: string, fp: Fingerprint)
    ensures Recorded(seen, rows, id, fp).Some? <==> id in seen || Has(rows, id)
    ensures id !in seen && Recorded(seen, rows, id, fp).Some? ==>
              exists e :: e in rows && e.eventId == id && fp(e) == Recorded(seen, rows, id, fp).value
  {
    if rows != [] {
      var init, r := rows[..|rows| - 1], rows[|rows| - 1];
      assert rows == init + [r];
      RecordedIs(seen, init, id, fp);
    }
  }

  lemma {:induction false} PickFresh(seen: map<string, int>, rows: seq<Event>, marks: seq<bool>)
    requires |marks| == |rows|
    requires forall i :: 0 <= i < |rows| ==> (marks[i] <==> rows[i].eventId !in seen && !Has(rows[..i], rows[i].eventId))
    ensures Pick(rows, marks) == FirstOccurrences(seen, rows)
  {
    if rows != [] {
      var n := |rows| - 1;
      forall i | 0 <= i < n ensures rows[..n][..i] == rows[..i] {
      }
      PickFresh(seen, rows[..n], marks[..n]);
    }
  }

  lemma ConsistentBatch(seen: map<string, int>, rows: seq<Event>, fp: Fingerprint)
    requires ConsistentWith(seen, rows, fp)
    ensures DeduplicateWith(seen, rows, fp).1.deduplicated == FirstOccurrences(seen, rows)
  {
    var flags := CheckRows(seen, rows, fp).flags;
    var a, b := DuplicateMarks(rows, flags, fp), ConflictMarks(rows, fp);
    forall i | 0 <= i < |rows|
      ensures Neither(a, b)[i] <==> rows[i].eventId !in seen && !Has(rows[..i], rows[i].eventId)
    {
      assert rows[i] in rows;
      FlagIff(seen, rows, i, fp);
      RecordedIs(seen, rows[..i], rows[i].eventId, fp);
      RepeatedIff(rows, i);
    }
    PickFresh(seen, rows, Neither(a, b));
  }

  lemma RepeatedIff(rows: seq<Event>, i: nat)
    requires i < |rows|
    ensures Repeated(rows, i) <==> Has(rows[..i], rows[i].eventId)
  {
    if Repeated(rows, i) {
      var j :| 0 <= j < i && rows[j].eventId == rows[i].eventId;
      assert rows[j] in rows[..i];
    }
  }

  lemma {:induction false} FirstOccurrencesConcat(seen: map<string, int>, mid: map<string, int>, a: seq<Event>, b: seq<Event>)
    requires forall id :: id in mid <==> id in seen || Has(a, id)
    ensures FirstOccurrences(seen, a + b) == FirstOccurrences(seen, a) + FirstOccurrences(mid, b)
  {
    if b == [] {
      assert a + b == a;
    } else {
      var init, r := b[..|b| - 1], b[|b| - 1];
      assert (a + b)[..|a + b| - 1] == a + init && (a + b)[|a + b| - 1] == r;
      FirstOccurrencesConcat(seen, mid, a, init);
      HasConcat(a, init, r.eventId);
      var last := if r.eventId in mid || Has(init, r.eventId) then [] else [r];
      assert FirstOccurrences(seen, a + b) == FirstOccurrences(seen, a + init) + last;
      assert FirstOccurrences(mid, b) == FirstOccurrences(mid, init) + last;
    }
  }

  lemma HasConcat(a: seq<Event>, b: seq<Event>, id: string)
    ensures Has(a + b, id) <==> Has(a, id) || Has(b, id)
  {
    if Has(a, id) {
      var e :| e in a && e.eventId == id;
      assert e in a + b;
    }
    if Has(b, id) {
      var e :| e in b && e.eventId == id;
      assert e in a + b;
    }
  }

  lemma {:induction false} RecordedConcat(seen: map<string, int>, mid: map<string, int>, a: seq<Event>, b: seq<Event>,
                                          id: string, fp: Fingerprint)
    requires Lookup(mid, id) == Recorded(seen, a, id, fp)
    ensures Recorded(seen, a + b, id, fp) == Recorded(mid, b, id, fp)
  {
    if b == [] {
      assert a + b == a;
    } else {
      assert (a + b)[..|a + b| - 1] == a + b[..|b| - 1];
      RecordedConcat(seen, mid, a, b[..|b| - 1], id, fp);
    }
  }

  lemma {:induction false} StreamState(seen: map<string, int>, batches: seq<seq<Event>>, id: string, fp: Fingerprint)
    ensures Lookup(Stream(seen, batches, fp).0, id) == Recorded(seen, Concat(batches), id, fp)
  {
    if batches != [] {
      var n := |batches| - 1;
      StreamState(seen, batches[..n], id, fp);
      var s := Stream(seen, batches[..n], fp).0;
      StateIsRecorded(s, batches[n], id, fp);
      RecordedConcat(seen, s, Concat(batches[..n]), batches[n], id, fp);
    }
  }

  /** However a stream without contradictions is cut into batches, what comes out is the first
      occurrence of each event, in order. */
  lemma {:induction false} CuttingIsIrrelevant(seen: map<string, int>, batches: seq<seq<Event>>, fp: Fingerprint)
    requires ConsistentWith(seen, Concat(batches), fp)
    ensures Stream(seen, batches, fp).1 == FirstOccurrences(seen, Concat(batches))
  {
    if batches != [] {
      var n := |batches| - 1;
      var before, rows := Concat(batches[..n]), batches[n];
      assert forall e :: e in before || e in rows ==> e in before + rows;
      CuttingIsIrrelevant(seen, batches[..n], fp);
      var s := Stream(seen, batches[..n], fp).0;
      forall id ensures Lookup(s, id) == Recorded(seen, before, id, fp) {
        StreamState(seen, batches[..n], id, fp);
      }
      StillConsistent(seen, s, before, rows, fp);
      ConsistentBatch(s, rows, fp);
      FirstOccurrencesConcat(seen, s, before, rows);
    }
  }

  lemma StillConsistent(seen: map<string, int>, s: map<string, int>, before: seq<Event>, rows: seq<Event>, fp: Fingerprint)
    requires ConsistentWith(seen, before + rows, fp)
    requires forall id :: Lookup(s, id) == Recorded(seen, before, id, fp)
    ensures ConsistentWith(s, rows, fp)
    ensures forall id :: id in s <==> id in seen || Has(before, id)
  {
    forall id ensures id in s <==> id in seen || Has(before, id) {
      RecordedIs(seen, before, id, fp);
      assert Lookup(s, id) == Recorded(seen, before, id, fp);
    }
    forall e | e in rows && e.eventId in s ensures s[e.eventId] == fp(e) {
      assert Lookup(s, e.eventId) == Recorded(seen, before, e.eventId, fp);
      RecordedIs(seen, before, e.eventId, fp);
      assert e in before + rows;
      assert forall x :: x in before ==> x in before + rows;
    }
    assert forall x :: x in rows ==> x in before + rows;
  }

  // ---------------------------------------------------------------- arbitrary streams

  /** How often event `id` with hash `h` is in `rows`. */
  function Count(rows: seq<Event>, id: string, h: int, fp: Fingerprint): nat {
    if rows == [] then 0
    else
      var r := rows[|rows| - 1];
      Count(rows[..|rows| - 1], id, h, fp) + (if r.eventId == id && fp(r) == h then 1 else 0)
  }

  lemma {:induction false} CountConcat(a: seq<Event>, b: seq<Event>, id: string, h: int, fp: Fingerprint)
    ensures Count(a + b, id, h, fp) == Count(a, id, h, fp) + Count(b, id, h, fp)
  {
    if b == [] {
      assert a + b == a;
    } else {
      assert (a + b)[..|a + b| - 1] == a + b[..|b| - 1];
      CountConcat(a, b[..|b| - 1], id, h, fp);
    }
  }

  lemma {:induction false} CountNone(rows: seq<Event>, id: string, h: int, fp: Fingerprint)
    requires !Has(rows, id)
    ensures Count(rows, id, h, fp) == 0
  {
    if rows != [] {
      assert forall e :: e in rows[..|rows| - 1] ==> e in rows;
      assert rows[|rows| - 1] in rows;
      CountNone(rows[..|rows| - 1], id, h, fp);
    }
  }

  /** When only a row that is the first of its event may be picked, at most one is. */
  lemma {:induction false} PickAtMostOne(rows: seq<Event>, marks: seq<bool>, id: string, h: int, known: bool, fp: Fingerprint)
    requires |marks| == |rows|
    requires forall i :: 0 <= i < |rows| && rows[i].eventId == id && fp(rows[i]) == h ==>
               (known || Has(rows[..i], id) ==> !marks[i])
    ensures Count(Pick(rows, marks), id, h, fp) <= if known then 0 else 1
    ensures !Has(rows, id) ==> Count(Pick(rows, marks), id, h, fp) == 0
  {
    if rows != [] {
      var n := |rows| - 1;
      forall i | 0 <= i < n ensures rows[..n][..i] == rows[..i] {
      }
      PickAtMostOne(rows[..n], marks[..n], id, h, known, fp);
      CountConcat(Pick(rows[..n], marks[..n]), if marks[n] then [rows[n]] else [], id, h, fp);
      assert rows[n] in rows && forall e :: e in rows[..n] ==> e in rows;
    }
  }

  lemma BatchEmits(seen: map<string, int>, rows: seq<Event>, id: string, fp: Fingerprint)
    requires Recorded(seen, rows, id, fp).Some?
    ensures var h := Recorded(seen, rows, id, fp).value;
            Count(DeduplicateWith(seen, rows, fp).1.deduplicated, id, h, fp) <= if id in seen then 0 else 1
  {
    var h := Recorded(seen, rows, id, fp).value;
    var flags := CheckRows(seen, rows, fp).flags;
    var a, b := DuplicateMarks(rows, flags, fp), ConflictMarks(rows, fp);
    forall i | 0 <= i < |rows| && rows[i].eventId == id && fp(rows[i]) == h && (id in seen || Has(rows[..i], id))
      ensures !Neither(a, b)[i]
    {
      FlagIff(seen, rows, i, fp);
      RecordedIs(seen, rows[..i], id, fp);
      RecordedEarly(seen, rows, i, id, fp);
    }
    PickAtMostOne(rows, Neither(a, b), id, h, id in seen, fp);
  }

  lemma {:induction false} RecordedEarly(seen: map<string, int>, rows: seq<Event>, i: nat, id: string, fp: Fingerprint)
    requires i <= |rows| && Recorded(seen, rows[..i], id, fp).Some?
    ensures Recorded(seen, rows, id, fp) == Recorded(seen, rows[..i], id, fp)
    decreases |rows|
  {
    if i == |rows| {
      assert rows[..i] == rows;
    } else {
      assert rows[..|rows| - 1][..i] == rows[..i];
      RecordedEarly(seen, rows[..|rows| - 1], i, id, fp);
    }
  }

  lemma {:induction false} PickHas(rows: seq<Event>, marks: seq<bool>, id: string)
    requires |marks| == |rows| && Has(Pick(rows, marks), id)
    ensures Has(rows, id)
  {
    var n := |rows| - 1;
    var out := Pick(rows[..n], marks[..n]);
    HasConcat(out, if marks[n] then [rows[n]] else [], id);
    assert rows == rows[..n] + [rows[n]];
    if Has(out, id) {
      PickHas(rows[..n], marks[..n], id);
      HasConcat(rows[..n], [rows[n]], id);
    }
  }

  /** Over all batches of any stream, the first recorded version of an event comes out at most once,
      and never if an earlier state had recorded it. */
  lemma {:induction false} FirstVersionAtMostOnce(seen: map<string, int>, batches: seq<seq<Event>>, id: string, fp: Fingerprint)
    ensures var (s, out) := Stream(seen, batches, fp);
            if id in s then Count(out, id, s[id], fp) <= (if id in seen then 0 else 1) else !Has(out, id)
  {
    if batches != [] {
      var n := |batches| - 1;
      FirstVersionAtMostOnce(seen, batches[..n], id, fp);
      var (s0, out0) := Stream(seen, batches[..n], fp);
      var rows := batches[n];
      var (s, r) := DeduplicateWith(s0, rows, fp);
      StateIsRecorded(s0, rows, id, fp);
      StreamState(seen, batches[..n], id, fp);
      RecordedIs(seen, Concat(batches[..n]), id, fp);
      if id in s {
        BatchEmits(s0, rows, id, fp);
        CountConcat(out0, r.deduplicated, id, s[id], fp);
        if id !in s0 {
          CountNone(out0, id, s[id], fp);
        }
      } else {
        RecordedIs(s0, rows, id, fp);
        HasConcat(out0, r.deduplicated, id);
        NotEmitted(s0, rows, id, fp);
      }
    }
  }

  lemma NotEmitted(seen: map<string, int>, rows: seq<Event>, id: string, fp: Fingerprint)
    requires !Has(rows, id)
    ensures !Has(DeduplicateWith(seen, rows, fp).1.deduplicated, id)
  {
    var flags := CheckRows(seen, rows, fp).flags;
    var marks := Neither(DuplicateMarks(rows, flags, fp), ConflictMarks(rows, fp));
    if Has(Pick(rows, marks), id) {
      PickHas(rows, marks, id);
    }
  }

  /** The recorded hash of an event, when the rows of the batch agree on it and start to repeat. */
  lemma {:induction false} RecordedAgreed(seen: map<string, int>, rows: seq<Event>, i: nat, fp: Fingerprint)
    requires i < |rows| && !Clashing(rows, rows[i].eventId, fp)
    ensures Recorded(seen, rows[..i], rows[i].eventId, fp)
         == if rows[i].eventId in seen then Some(seen[rows[i].eventId])
            else if Has(rows[..i], rows[i].eventId) then Some(fp(rows[i])) else None
  {
    var id := rows[i].eventId;
    RecordedIs(seen, rows[..i], id, fp);
    if id !in seen && Has(rows[..i], id) {
      var e :| e in rows[..i] && e.eventId == id && fp(e) == Recorded(seen, rows[..i], id, fp).value;
      assert e in rows && rows[i] in rows;
    }
  }

  /** What any batch lets through of an event, with a state: its first row, exactly when its rows agree
      and are not the recorded version; otherwise nothing. In particular every batch that agrees on
      another version than the recorded one lets it through. */
  lemma EmittedWithState(seen: map<string, int>, rows: seq<Event>, i: nat, fp: Fingerprint)
    requires i < |rows| && !Has(rows[..i], rows[i].eventId)
    ensures var id := rows[i].eventId;
            Only(DeduplicateWith(seen, rows, fp).1.deduplicated, id)
            == if !Clashing(rows, id, fp) && Lookup(seen, id) != Some(fp(rows[i])) then FirstOr(Only(rows, id), true) else []
  {
    var id := rows[i].eventId;
    var flags := CheckRows(seen, rows, fp).flags;
    var a, b := DuplicateMarks(rows, flags, fp), ConflictMarks(rows, fp);
    forall j | 0 <= j < |rows| && rows[j].eventId == id
      ensures b[j] == Clashing(rows, id, fp)
      ensures !Clashing(rows, id, fp) ==> a[j] == (Lookup(seen, id) == Some(fp(rows[i])) || Has(rows[..j], id))
    {
      ClashingIff(rows, rows[j], fp);
      if !Clashing(rows, id, fp) {
        assert rows[j] in rows && rows[i] in rows && fp(rows[j]) == fp(rows[i]);
        FlagIff(seen, rows, j, fp);
        RecordedAgreed(seen, rows, j, fp);
        RepeatedIff(rows, j);
      }
    }
    if !Clashing(rows, id, fp) && Lookup(seen, id) != Some(fp(rows[i])) {
      PickFirst(rows, Neither(a, b), id, true);
    } else {
      PickWhole(rows, Neither(a, b), id, false);
    }
  }

  /** The rows whose event a state had recorded. */
  function InState(seen: map<string, int>, rows: seq<Event>): (r: seq<Event>)
    ensures |r| <= |rows|
    ensures |r| == |rows| <==> forall e :: e in rows ==> e.eventId in seen
    ensures (forall e :: e in rows ==> e.eventId in seen) ==> r == rows
  {
    if rows == [] then []
    else
      var init, e := rows[..|rows| - 1], rows[|rows| - 1];
      assert rows == init + [e];
      InState(seen, init) + (if e.eventId in seen then [e] else [])
  }

  lemma InStateAppend(seen: map<string, int>, rows: seq<Event>, e: Event)
    ensures InState(seen, rows + [e]) == InState(seen, rows) + (if e.eventId in seen then [e] else [])
  {
    assert (rows + [e])[..|rows|] == rows;
  }

  lemma {:induction false} PickInState(seen: map<string, int>, rows: seq<Event>, a: seq<bool>, b: seq<bool>)
    requires |a| == |b| == |rows|
    requires forall i :: 0 <= i < |rows| ==> (b[i] <==> a[i] && rows[i].eventId in seen)
    ensures Pick(rows, b) == InState(seen, Pick(rows, a))
  {
    if rows != [] {
      var n := |rows| - 1;
      PickInState(seen, rows[..n], a[..n], b[..n]);
      PickLast(rows, a);
      PickLast(rows, b);
      if a[n] {
        InStateAppend(seen, Pick(rows[..n], a[..n]), rows[n]);
      }
    }
  }

  lemma PickLast(rows: seq<Event>, marks: seq<bool>)
    requires |marks| == |rows| && rows != []
    ensures var n := |rows| - 1;
            Pick(rows, marks) == if marks[n] then Pick(rows[..n], marks[..n]) + [rows[n]] else Pick(rows[..n], marks[..n])
  {
    var before := Pick(rows[..|rows| - 1], marks[..|rows| - 1]);
    assert before + [] == before;
  }

  /** Going through the deduplicator again with the state the first pass left, a batch gets through
      what it got through before, of the events that were recorded before it: those come in another
      version. All other events are now taken for duplicates. */
  lemma SecondPass(seen: map<string, int>, rows: seq<Event>, fp: Fingerprint)
    ensures var (s, first) := DeduplicateWith(seen, rows, fp);
            DeduplicateWith(s, rows, fp).1.deduplicated == InState(seen, first.deduplicated)
  {
    var s := CheckRows(seen, rows, fp).seen;
    var b := ConflictMarks(rows, fp);
    var once := Neither(DuplicateMarks(rows, CheckRows(seen, rows, fp).flags, fp), b);
    var twice := Neither(DuplicateMarks(rows, CheckRows(s, rows, fp).flags, fp), b);
    forall i | 0 <= i < |rows| ensures twice[i] <==> once[i] && rows[i].eventId in seen {
      SecondFlag(seen, rows, i, fp);
    }
    PickInState(seen, rows, once, twice);
  }

  lemma SecondFlag(seen: map<string, int>, rows: seq<Event>, i: nat, fp: Fingerprint)
    requires i < |rows|
    ensures var s := CheckRows(seen, rows, fp).seen;
            var known := InConflict(rows, rows[i], fp) || Repeated(rows, i);
            !known && !CheckRows(s, rows, fp).flags[i]
            <==> !known && !CheckRows(seen, rows, fp).flags[i] && rows[i].eventId in seen
  {
    var s, id := CheckRows(seen, rows, fp).seen, rows[i].eventId;
    FlagIff(seen, rows, i, fp);
    FlagIff(s, rows, i, fp);
    ClashingIff(rows, rows[i], fp);
    if !Clashing(rows, id, fp) {
      StateIsRecorded(seen, rows, id, fp);
      RecordedIs(seen, rows, id, fp);
      RecordedAgreed(seen, rows, i, fp);
      RecordedAgreed(s, rows, i, fp);
      RepeatedIff(rows, i);
      assert rows[i] in rows;
    }
  }

  /** What a batch lets through, with or without a state: each event whose rows agree, unless they are
      the recorded version. */
  ghost predicate Emits(seen: Option<map<string, int>>, rows: seq<Event>, r: Event, fp: Fingerprint) {
    !Clashing(rows, r.eventId, fp) && (seen.Some? ==> Lookup(seen.value, r.eventId) != Some(fp(r)))
  }

  lemma {:induction false} FirstOf(rows: seq<Event>, id: string) returns (i: nat)
    requires Has(rows, id)
    ensures i < |rows| && rows[i].eventId == id && !Has(rows[..i], id)
  {
    var n := |rows| - 1;
    assert rows == rows[..n] + [rows[n]];
    if Has(rows[..n], id) {
      i := FirstOf(rows[..n], id);
      assert rows[..n][..i] == rows[..i];
    } else {
      i := n;
    }
  }

  lemma EmitsIff(seen: map<string, int>, rows: seq<Event>, r: Event, fp: Fingerprint)
    requires r in rows
    ensures Has(DeduplicateWith(seen, rows, fp).1.deduplicated, r.eventId) <==> Emits(Some(seen), rows, r, fp)
  {
    var i := FirstOf(rows, r.eventId);
    EmittedWithState(seen, rows, i, fp);
    OnlyEmpty(DeduplicateWith(seen, rows, fp).1.deduplicated, r.eventId);
    OnlyEmpty(rows, r.eventId);
    assert rows[i] in rows;
  }

  function Times<T>(x: T, n: nat): (s: seq<T>)
    ensures |s| == n && forall i :: 0 <= i < n ==> s[i] == x
  {
    seq(n, i => x)
  }

  /** Another version of a recorded event is let through every time it comes alone in a batch. */
  lemma {:induction false} OtherVersionRepeats(seen: map<string, int>, r: Event, n: nat, fp: Fingerprint)
    requires r.eventId in seen && seen[r.eventId] != fp(r)
    ensures Stream(seen, Times([r], n), fp) == (seen, Times(r, n))
  {
    if n > 0 {
      OtherVersionRepeats(seen, r, n - 1, fp);
      assert Times([r], n)[..n - 1] == Times([r], n - 1);
      assert Times(r, n) == Times(r, n - 1) + [r];
      OtherVersionAlone(seen, r, fp);
    }
  }

  lemma OtherVersionAlone(seen: map<string, int>, r: Event, fp: Fingerprint)
    requires r.eventId in seen && seen[r.eventId] != fp(r)
    ensures DeduplicateWith(seen, [r], fp).0 == seen && DeduplicateWith(seen, [r], fp).1.deduplicated == [r]
  {
    var rows := [r];
    assert rows[..0] == [];
    CheckInit(seen, rows, fp);
    assert CheckRows(seen, [], fp) == Checked(seen, []);
    var marks := Neither(DuplicateMarks(rows, CheckRows(seen, rows, fp).flags, fp), ConflictMarks(rows, fp));
    assert marks[0];
    assert Pick(rows[..0], marks[..0]) == [];
  }
}
