/** Replay-safe deduplication: an in-memory state across batches, and group flags within one. */
module Deduplication {
  import opened Common
  import opened Events

  /** The payload hash, as a function of the row. */
  type Fingerprint = Event -> int

  // ---------------------------------------------------------------- the state

  datatype Checked = Checked(seen: map<string, int>, flags: seq<bool>)

  /** True for an event already seen with the same hash; the first hash of an event is recorded and
      never replaced. */
  function Check(seen: map<string, int>, ids: seq<string>, hashes: seq<int>): (c: Checked)
    requires |ids| == |hashes|
    ensures |c.flags| == |ids|
  {
    if ids == [] then Checked(seen, [])
    else
      var n := |ids| - 1;
      var c := Check(seen, ids[..n], hashes[..n]);
      if ids[n] in c.seen then Checked(c.seen, c.flags + [c.seen[ids[n]] == hashes[n]])
      else Checked(c.seen[ids[n] := hashes[n]], c.flags + [false])
  }

  class DeduplicationState {
    var seen: map<string, int>

    constructor ()
      ensures seen == map[]
    {
      seen := map[];
    }

    /** `zip` stops at the shorter list. */
    method CheckAndUpdate(ids: seq<string>, hashes: seq<int>) returns (results: seq<bool>)
      modifies this
      ensures var n := if |ids| <= |hashes| then |ids| else |hashes|;
              Checked(seen, results) == Check(old(seen), ids[..n], hashes[..n])
    {
      results := [];
      var n := if |ids| <= |hashes| then |ids| else |hashes|;
      for i := 0 to n
        invariant Checked(seen, results) == Check(old(seen), ids[..i], hashes[..i])
      {
        assert ids[..i + 1][..i] == ids[..i] && hashes[..i + 1][..i] == hashes[..i];
        if ids[i] in seen {
          if seen[ids[i]] == hashes[i] {
            results := results + [true];
          } else {
            results := results + [false];
          }
        } else {
          seen := seen[ids[i] := hashes[i]];
          results := results + [false];
        }
      }
    }
  }

  // ---------------------------------------------------------------- flags within a batch

  /** More than one distinct hash in the row's event group. */
  predicate InConflict(rows: seq<Event>, r: Event, fp: Fingerprint) {
    exists s :: s in rows && s.eventId == r.eventId && fp(s) != fp(r)
  }

  predicate Repeated(rows: seq<Event>, i: nat)
    requires i < |rows|
  {
    exists j :: 0 <= j < i && rows[j].eventId == rows[i].eventId
  }

  function ConflictMarks(rows: seq<Event>, fp: Fingerprint): seq<bool> {
    seq(|rows|, i requires 0 <= i < |rows| => InConflict(rows, rows[i], fp))
  }

  /** In a group of equal hashes the ordinal rank is the order of arrival. */
  function DuplicateMarks(rows: seq<Event>, flags: seq<bool>, fp: Fingerprint): seq<bool>
    requires |flags| == |rows|
  {
    seq(|rows|, i requires 0 <= i < |rows| => flags[i] || (!InConflict(rows, rows[i], fp) && Repeated(rows, i)))
  }

  /** `df.filter(marks)` */
  function Pick<T>(rows: seq<T>, marks: seq<bool>): seq<T>
    requires |marks| == |rows|
  {
    if rows == [] then []
    else
      var n := |rows| - 1;
      Pick(rows[..n], marks[..n]) + (if marks[n] then [rows[n]] else [])
  }

  function Neither(a: seq<bool>, b: seq<bool>): (c: seq<bool>)
    requires |a| == |b|
    ensures |c| == |a| && forall i :: 0 <= i < |c| ==> c[i] == (!a[i] && !b[i])
  {
    seq(|a|, i requires 0 <= i < |a| => !a[i] && !b[i])
  }

  datatype DeduplicationResult = DeduplicationResult(
    deduplicated: seq<Event>, duplicates: seq<Event>, conflicts: seq<Event>)
  {
    function TotalInputCount(): nat {
      |deduplicated| + |duplicates| + |conflicts|
    }
  }

  function Split(rows: seq<Event>, flags: seq<bool>, fp: Fingerprint): DeduplicationResult
    requires |flags| == |rows|
  {
    var duplicate, conflict := DuplicateMarks(rows, flags, fp), ConflictMarks(rows, fp);
    DeduplicationResult(Pick(rows, Neither(duplicate, conflict)), Pick(rows, duplicate), Pick(rows, conflict))
  }

  function Ids(rows: seq<Event>): (ids: seq<string>)
    ensures |ids| == |rows| && forall i :: 0 <= i < |rows| ==> ids[i] == rows[i].eventId
  {
    seq(|rows|, i requires 0 <= i < |rows| => rows[i].eventId)
  }

  function Hashes(rows: seq<Event>, fp: Fingerprint): (hashes: seq<int>)
    ensures |hashes| == |rows| && forall i :: 0 <= i < |rows| ==> hashes[i] == fp(rows[i])
  {
    seq(|rows|, i requires 0 <= i < |rows| => fp(rows[i]))
  }

  function NoFlags(n: nat): (flags: seq<bool>)
    ensures |flags| == n && forall i :: 0 <= i < n ==> !flags[i]
  {
    seq(n, i => false)
  }

  /** The state `seen` after a batch, and how the batch was split. */
  function DeduplicateWith(seen: map<string, int>, rows: seq<Event>, fp: Fingerprint): (map<string, int>, DeduplicationResult)
  {
    var c := Check(seen, Ids(rows), Hashes(rows, fp));
    (c.seen, Split(rows, c.flags, fp))
  }

  method Deduplicate(rows: seq<Event>, state: DeduplicationState?, fp: Fingerprint) returns (r: DeduplicationResult)
    modifies state
    ensures state == null ==> r == Split(rows, NoFlags(|rows|), fp)
    ensures state != null ==> (state.seen, r) == DeduplicateWith(old(state.seen), rows, fp)
  {
    if rows == [] {
      return DeduplicationResult([], [], []);
    }
    var flags := NoFlags(|rows|);
    if state != null {
      flags := state.CheckAndUpdate(Ids(rows), Hashes(rows, fp));
      assert Ids(rows)[..|rows|] == Ids(rows) && Hashes(rows, fp)[..|rows|] == Hashes(rows, fp);
    }
    r := Split(rows, flags, fp);
  }

  // ---------------------------------------------------------------- what the flags mean

  /** The hash recorded for `id` when the batch reaches row `i`. */
  function Recorded(seen: map<string, int>, rows: seq<Event>, id: string, fp: Fingerprint): Option<int> {
    if id in seen then Some(seen[id])
    else if rows == [] then None
    else
      match Recorded(seen, rows[..|rows| - 1], id, fp)
      case Some(h) => Some(h)
      case None => if rows[|rows| - 1].eventId == id then Some(fp(rows[|rows| - 1])) else None
  }

  function CheckRows(seen: map<string, int>, rows: seq<Event>, fp: Fingerprint): (c: Checked)
    ensures |c.flags| == |rows|
  {
    Check(seen, Ids(rows), Hashes(rows, fp))
  }

  lemma CheckInit(seen: map<string, int>, rows: seq<Event>, fp: Fingerprint)
    requires rows != []
    ensures var init, r := rows[..|rows| - 1], rows[|rows| - 1];
            var c := CheckRows(seen, init, fp);
            CheckRows(seen, rows, fp)
            == if r.eventId in c.seen then Checked(c.seen, c.flags + [c.seen[r.eventId] == fp(r)])
               else Checked(c.seen[r.eventId := fp(r)], c.flags + [false])
  {
    var n := |rows| - 1;
    assert Ids(rows)[..n] == Ids(rows[..n]) && Hashes(rows, fp)[..n] == Hashes(rows[..n], fp);
  }

  lemma {:induction false} StateIsRecorded(seen: map<string, int>, rows: seq<Event>, id: string, fp: Fingerprint)
    ensures Lookup(CheckRows(seen, rows, fp).seen, id) == Recorded(seen, rows, id, fp)
  {
    if rows != [] {
      CheckInit(seen, rows, fp);
      StateIsRecorded(seen, rows[..|rows| - 1], id, fp);
      StateIsRecorded(seen, rows[..|rows| - 1], rows[|rows| - 1].eventId, fp);
    }
  }

  /** A row is flagged exactly when its hash is the one recorded for its event. */
  lemma {:induction false} FlagIff(seen: map<string, int>, rows: seq<Event>, i: nat, fp: Fingerprint)
    requires i < |rows|
    ensures CheckRows(seen, rows, fp).flags[i] <==> Recorded(seen, rows[..i], rows[i].eventId, fp) == Some(fp(rows[i]))
  {
    var n := |rows| - 1;
    CheckInit(seen, rows, fp);
    if i == n {
      StateIsRecorded(seen, rows[..n], rows[n].eventId, fp);
    } else {
      FlagIff(seen, rows[..n], i, fp);
      assert rows[..n][..i] == rows[..i];
    }
  }
}
