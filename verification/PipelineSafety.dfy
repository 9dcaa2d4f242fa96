/** What the pipeline guarantees about one batch, about retries, and about what it publishes. */
module PipelineSafety {
  import opened Common
  import opened Events
  import opened Validation
  import opened Deduplication
  import opened DeduplicationSafety
  import opened Pipeline

  // ---------------------------------------------------------------- the event index

  /** `m` is the last message of its id. */
  ghost predicate IsLast(messages: seq<Event>, m: Event) {
    exists i :: 0 <= i < |messages| && messages[i] == m
      && forall j :: i < j < |messages| ==> messages[j].eventId != m.eventId
  }

  lemma LastSnoc(init: seq<Event>, m: Event, x: Event)
    requires x == m || (x.eventId != m.eventId && IsLast(init, x))
    ensures IsLast(init + [m], x)
  {
    var all := init + [m];
    if x == m {
      assert all[|init|] == x;
    } else {
      var i :| 0 <= i < |init| && init[i] == x && forall j :: i < j < |init| ==> init[j].eventId != x.eventId;
      assert all[i] == x && forall j :: i < j < |init| ==> all[j] == init[j];
    }
  }

  lemma {:induction false} IndexHoldsLast(messages: seq<Event>, id: string)
    ensures id in Index(messages) <==> Has(messages, id)
    ensures id in Index(messages) ==> Index(messages)[id].eventId == id && IsLast(messages, Index(messages)[id])
  {
    if messages != [] {
      var init, m := messages[..|messages| - 1], messages[|messages| - 1];
      assert messages == init + [m] && m in [m];
      IndexHoldsLast(init, id);
      HasConcat(init, [m], id);
      if id in Index(messages) {
        LastSnoc(init, m, Index(messages)[id]);
      }
    }
  }

  lemma CallsSnoc(kind: Kind, rows: seq<Event>, r: Event, index: map<string, Event>, normalize: Normalize)
    requires r.eventId in index
    ensures Calls(kind, rows + [r], index, normalize)
         == Calls(kind, rows, index, normalize) + [CallFor(kind, r, index[r.eventId], normalize)]
  {
    assert (rows + [r])[..|rows|] == rows;
  }

  /** Every row gets its call, for the last message of its id: the lookup never misses. */
  lemma {:induction false} LookupNeverMisses(kind: Kind, rows: seq<Event>, messages: seq<Event>, normalize: Normalize)
    requires forall r :: r in rows ==> r in messages
    ensures var index, calls := Index(messages), Calls(kind, rows, Index(messages), normalize);
            |calls| == |rows|
            && forall i :: 0 <= i < |rows| ==>
                 rows[i].eventId in index && calls[i] == CallFor(kind, rows[i], index[rows[i].eventId], normalize)
  {
    if rows != [] {
      var init, r := rows[..|rows| - 1], rows[|rows| - 1];
      assert rows == init + [r];
      LookupNeverMisses(kind, init, messages, normalize);
      assert r in messages && Has(messages, r.eventId);
      IndexHoldsLast(messages, r.eventId);
      CallsSnoc(kind, init, r, Index(messages), normalize);
    }
  }

  // ---------------------------------------------------------------- counts

  lemma {:induction false} FilterParts(rows: seq<Event>, normalize: Normalize)
    ensures |Filter(rows, true, normalize)| + |Filter(rows, false, normalize)| == |rows|
    ensures forall r :: r in Filter(rows, true, normalize) <==> r in rows && IsValid(r, normalize)
    ensures forall r :: r in Filter(rows, false, normalize) <==> r in rows && !IsValid(r, normalize)
  {
    if rows != [] {
      FilterParts(rows[..|rows| - 1], normalize);
      assert rows == rows[..|rows| - 1] + [rows[|rows| - 1]];
    }
  }

  lemma OutputsAreRows(rows: seq<Event>, fp: Fingerprint)
    ensures var r := Split(rows, NoFlags(|rows|), fp);
            forall e :: e in r.deduplicated || e in r.duplicates || e in r.conflicts ==> e in rows
  {
    SplitPartitions(rows, fp);
    var r := Split(rows, NoFlags(|rows|), fp);
    forall e | e in r.deduplicated || e in r.duplicates || e in r.conflicts ensures e in rows {
      assert e in Outputs(r);
      assert e in multiset(rows);
    }
  }

  /** Without a deduplication state, a batch that succeeds accounts for every message once; the
      `total` property counts conflicts twice. */
  lemma CountsAddUp(messages: seq<Event>, normalize: Normalize, fp: Fingerprint)
    ensures var r := ResultOf(PlanOf(messages, None, normalize, fp));
            r.publishedValid + r.publishedInvalid + r.duplicatesSkipped == |messages|
            && r.conflicts <= r.publishedInvalid && r.Total() == |messages| + r.conflicts
  {
    var valid, invalid := Filter(messages, true, normalize), Filter(messages, false, normalize);
    FilterParts(messages, normalize);
    SplitPartitions(valid, fp);
    OutputsAreRows(valid, fp);
    LookupNeverMisses(InvalidRow, invalid, messages, normalize);
    LookupNeverMisses(ConflictRow, Split(valid, NoFlags(|valid|), fp).conflicts, messages, normalize);
  }

  // ---------------------------------------------------------------- failures and retries

  const FRESH := Sent([], 0, false)

  /** A batch that raises has delivered a prefix of its calls; one that does not, all of them. */
  lemma FailsWithPrefix(p: Plan, before: Seen, fault: Fault)
    ensures var o := Effect(p, before, FRESH, fault);
            o.sent.delivered <= AllCalls(p)
            && (o.result == None <==> fault.Raises? && fault.at < |AllCalls(p)|)
            && (o.result.Some? ==> o.sent.delivered == AllCalls(p))
  {
    if fault.Raises? && fault.at < |AllCalls(p)| {
      assert AllCalls(p)[..fault.at] + [AllCalls(p)[fault.at]] == AllCalls(p)[..fault.at + 1];
    }
  }

  /** Without a state a retry delivers the whole call sequence, of which the first attempt delivered a
      prefix; the first attempt raised exactly when the fault lies within the calls. */
  lemma RetryWithoutState(messages: seq<Event>, normalize: Normalize, fp: Fingerprint, fault: Fault)
    ensures var p := PlanOf(messages, None, normalize, fp);
            var first := Effect(p, None, FRESH, fault);
            var again := Effect(PlanOf(messages, first.seen, normalize, fp), first.seen, FRESH, NoFault);
            first.sent.delivered <= again.sent.delivered == AllCalls(p) && again.result == Some(ResultOf(p))
            && (first.result == None <==> fault.Raises? && fault.at < |AllCalls(p)|)
            && (first.result.Some? ==> first.sent.delivered == AllCalls(p))
  {
    FailsWithPrefix(PlanOf(messages, None, normalize, fp), None, fault);
    FailsWithPrefix(PlanOf(messages, None, normalize, fp), None, NoFault);
  }

  /** With a state, for any batch whose first attempt raised: the retry makes the same publish calls
      exactly when the failure came among the invalid rows, or every event to publish is another
      version of one recorded before the batch. After a later failure these are the only events that
      the retry publishes; all the others are taken for duplicates. */
  lemma RetryWithStateIff(messages: seq<Event>, seen: map<string, int>, normalize: Normalize, fp: Fingerprint, fault: Fault)
    requires fault.Raises? && fault.at < |AllCalls(PlanOf(messages, Some(seen), normalize, fp))|
    ensures var p := PlanOf(messages, Some(seen), normalize, fp);
            var first := Effect(p, Some(seen), FRESH, fault);
            var retry := PlanOf(messages, first.seen, normalize, fp);
            first.result == None
            && (retry.valid == p.valid <==>
                  fault.at < |p.invalid| || forall r :: r in p.split.deduplicated ==> r.eventId in seen)
            && (fault.at >= |p.invalid| ==> retry.split.deduplicated == InState(seen, p.split.deduplicated))
  {
    var valid := Filter(messages, true, normalize);
    var p := PlanOf(messages, Some(seen), normalize, fp);
    var first := Effect(p, Some(seen), FRESH, fault);
    if fault.at < |p.invalid| {
      assert first.seen == Some(seen);
    } else {
      assert first.seen == Some(DeduplicateWith(seen, valid, fp).0);
      SecondPass(seen, valid, fp);
      FilterParts(messages, normalize);
      AllFromBatch(seen, valid, fp);
      AllFromBatch(DeduplicateWith(seen, valid, fp).0, valid, fp);
      SameCallsIff(seen, p.split.deduplicated, messages, normalize);
    }
  }

  lemma AllFromBatch(seen: map<string, int>, rows: seq<Event>, fp: Fingerprint)
    ensures forall e :: e in DeduplicateWith(seen, rows, fp).1.deduplicated ==> e in rows
  {
    var flags := CheckRows(seen, rows, fp).flags;
    PickFromRows(rows, Neither(DuplicateMarks(rows, flags, fp), ConflictMarks(rows, fp)));
  }

  lemma {:induction false} PickFromRows(rows: seq<Event>, marks: seq<bool>)
    requires |marks| == |rows|
    ensures forall e :: e in Pick(rows, marks) ==> e in rows
  {
    if rows != [] {
      PickFromRows(rows[..|rows| - 1], marks[..|rows| - 1]);
    }
  }

  lemma SameCallsIff(seen: map<string, int>, out: seq<Event>, messages: seq<Event>, normalize: Normalize)
    requires forall r :: r in out ==> r in messages
    requires forall r :: r in InState(seen, out) ==> r in messages
    ensures Calls(ValidRow, InState(seen, out), Index(messages), normalize) == Calls(ValidRow, out, Index(messages), normalize)
            <==> forall r :: r in out ==> r.eventId in seen
  {
    LookupNeverMisses(ValidRow, out, messages, normalize);
    LookupNeverMisses(ValidRow, InState(seen, out), messages, normalize);
  }

  /** In a batch without contradictions nothing is another version: after a failure behind the invalid
      rows the retry publishes nothing. */
  lemma ConsistentRetry(messages: seq<Event>, seen: map<string, int>, normalize: Normalize, fp: Fingerprint, fault: Fault)
    requires ConsistentWith(seen, Filter(messages, true, normalize), fp)
    requires fault.Raises? && fault.at < |AllCalls(PlanOf(messages, Some(seen), normalize, fp))|
    ensures var p := PlanOf(messages, Some(seen), normalize, fp);
            var first := Effect(p, Some(seen), FRESH, fault);
            var retry := PlanOf(messages, first.seen, normalize, fp);
            (retry.valid == p.valid <==> fault.at < |p.invalid| || p.valid == [])
            && (fault.at >= |p.invalid| ==> retry.valid == [])
  {
    var valid := Filter(messages, true, normalize);
    var out := DeduplicateWith(seen, valid, fp).1.deduplicated;
    RetryWithStateIff(messages, seen, normalize, fp, fault);
    AllFromBatch(seen, valid, fp);
    ConsistentBatch(seen, valid, fp);
    OnlyNew(seen, valid);
    NoneInState(seen, out);
    FilterParts(messages, normalize);
    LookupNeverMisses(ValidRow, out, messages, normalize);
  }

  lemma {:induction false} OnlyNew(seen: map<string, int>, rows: seq<Event>)
    ensures forall e :: e in FirstOccurrences(seen, rows) ==> e.eventId !in seen
  {
    if rows != [] {
      OnlyNew(seen, rows[..|rows| - 1]);
    }
  }

  lemma {:induction false} NoneInState(seen: map<string, int>, rows: seq<Event>)
    requires forall e :: e in rows ==> e.eventId !in seen
    ensures InState(seen, rows) == []
  {
    if rows != [] {
      NoneInState(seen, rows[..|rows| - 1]);
    }
  }

  // ---------------------------------------------------------------- what is published

  /** The output holds a row of `id` exactly when some valid row has it and the valid rows agree. */
  lemma EmittedIff(rows: seq<Event>, fp: Fingerprint, id: string)
    ensures Has(Split(rows, NoFlags(|rows|), fp).deduplicated, id) <==> Has(rows, id) && !Clashing(rows, id, fp)
  {
    var out := Split(rows, NoFlags(|rows|), fp).deduplicated;
    OnlyEmpty(out, id);
    OnlyEmpty(rows, id);
    if Clashing(rows, id, fp) {
      SplitOfClash(rows, fp, id);
    } else {
      SplitOfGroup(rows, fp, id);
    }
  }

  ghost predicate PublishesOnlyValid(calls: seq<Call>, normalize: Normalize) {
    forall c :: c in calls && c.Publish? ==> IsValid(c.event, normalize)
  }

  /** The last message of the id exists and is valid. */
  predicate LastIsValid(index: map<string, Event>, id: string, normalize: Normalize) {
    id in index && IsValid(index[id], normalize)
  }

  /** The published event is the last message of the id, not the row that was validated. So only
      valid events are published exactly when every id that the batch lets through has a valid last
      message. */
  lemma PublishesOnlyValidIff(messages: seq<Event>, seen: Seen, normalize: Normalize, fp: Fingerprint)
    ensures var valid := Filter(messages, true, normalize);
            PublishesOnlyValid(PlanOf(messages, seen, normalize, fp).valid, normalize)
            <==> forall m :: m in valid && Emits(seen, valid, m, fp) ==> LastIsValid(Index(messages), m.eventId, normalize)
  {
    var valid := Filter(messages, true, normalize);
    FilterParts(messages, normalize);
    var out := Dedup(seen, valid, fp).1.deduplicated;
    if seen.Some? { AllFromBatch(seen.value, valid, fp); } else { OutputsAreRows(valid, fp); }
    forall m | m in valid ensures Has(out, m.eventId) <==> Emits(seen, valid, m, fp) {
      if seen.Some? { EmitsIff(seen.value, valid, m, fp); } else { EmittedIff(valid, fp, m.eventId); }
    }
    PublishedAre(out, messages, normalize);
    OnEmitted(valid, out, seen, Index(messages), normalize, fp);
  }

  lemma PublishedAre(out: seq<Event>, messages: seq<Event>, normalize: Normalize)
    requires forall r :: r in out ==> r in messages
    ensures PublishesOnlyValid(Calls(ValidRow, out, Index(messages), normalize), normalize)
            <==> forall r :: r in out ==> LastIsValid(Index(messages), r.eventId, normalize)
  {
    var calls := Calls(ValidRow, out, Index(messages), normalize);
    LookupNeverMisses(ValidRow, out, messages, normalize);
    forall i | 0 <= i < |out| ensures calls[i] in calls && out[i] in out {
    }
    forall r | r in out && PublishesOnlyValid(calls, normalize) ensures LastIsValid(Index(messages), r.eventId, normalize) {
      var i :| 0 <= i < |out| && out[i] == r;
      assert calls[i] in calls;
    }
  }

  lemma OnEmitted(valid: seq<Event>, out: seq<Event>, seen: Seen, index: map<string, Event>, normalize: Normalize,
                  fp: Fingerprint)
    requires forall r :: r in out ==> r in valid
    requires forall m :: m in valid ==> (Has(out, m.eventId) <==> Emits(seen, valid, m, fp))
    ensures (forall r :: r in out ==> LastIsValid(index, r.eventId, normalize))
            <==> forall m :: m in valid && Emits(seen, valid, m, fp) ==> LastIsValid(index, m.eventId, normalize)
  {
    forall r | r in out ensures r in valid && Emits(seen, valid, r, fp) {
      assert Has(out, r.eventId);
    }
  }

  lemma SingleRow(r: Event, fp: Fingerprint)
    ensures Split([r], NoFlags(1), fp) == DeduplicationResult([r], [], [])
  {
    var rows := [r];
    var a, b := DuplicateMarks(rows, NoFlags(1), fp), ConflictMarks(rows, fp);
    assert !InConflict(rows, r, fp);
    assert !a[0] && !b[0] && Neither(a, b)[0];
    PickOne(r, a);
    PickOne(r, b);
    PickOne(r, Neither(a, b));
  }

  lemma PickOne(r: Event, marks: seq<bool>)
    requires |marks| == 1
    ensures Pick([r], marks) == if marks[0] then [r] else []
  {
    assert [r][..0] == [] && Pick([r][..0], marks[..0]) == [];
  }

  lemma FilterSnoc(rows: seq<Event>, r: Event, valid: bool, normalize: Normalize)
    ensures Filter(rows + [r], valid, normalize)
         == Filter(rows, valid, normalize) + (if IsValid(r, normalize) == valid then [r] else [])
  {
    assert (rows + [r])[..|rows|] == rows;
  }

  lemma FilterTwo(a: Event, b: Event, valid: bool, normalize: Normalize)
    ensures Filter([a, b], valid, normalize)
         == (if IsValid(a, normalize) == valid then [a] else []) + (if IsValid(b, normalize) == valid then [b] else [])
  {
    FilterSnoc([], a, valid, normalize);
    FilterSnoc([a], b, valid, normalize);
    assert [a, b] == [a] + [b] && [a] == [] + [a];
    assert Filter([], valid, normalize) == [];
  }

  lemma IndexTwo(a: Event, b: Event)
    requires a.eventId == b.eventId
    ensures Index([a, b]) == map[b.eventId := b]
  {
    assert [a, b][..1] == [a] && [a][..0] == [];
    assert Index([]) == map[] && Index([a]) == map[a.eventId := a];
  }

  lemma OneCall(kind: Kind, r: Event, index: map<string, Event>, normalize: Normalize)
    requires r.eventId in index
    ensures Calls(kind, [r], index, normalize) == [CallFor(kind, r, index[r.eventId], normalize)]
  {
    assert [r][..0] == [] && Calls(kind, [], index, normalize) == [];
  }

  /** A valid message followed by an invalid one of the same id: the invalid event goes to the
      validated topic, and the valid one is not published at all. */
  lemma InvalidPublished(good: Event, bad: Event, normalize: Normalize, fp: Fingerprint)
    requires good.eventId == bad.eventId && IsValid(good, normalize) && !IsValid(bad, normalize)
    ensures AllCalls(PlanOf([good, bad], None, normalize, fp))
         == [Invalid(bad, Joined(Errors(normalize(bad)))), Publish(bad)]
  {
    var index := map[bad.eventId := bad];
    FilterTwo(good, bad, true, normalize);
    FilterTwo(good, bad, false, normalize);
    IndexTwo(good, bad);
    SingleRow(good, fp);
    OneCall(InvalidRow, bad, index, normalize);
    OneCall(ValidRow, good, index, normalize);
    var p := PlanWith(index, [bad], [good], None, normalize, fp);
    assert p.conflict == [] && p.valid == [Publish(bad)];
  }

  // ---------------------------------------------------------------- which call for which row

  predicate OfKind(c: Call, kind: Kind) {
    match kind
    case ValidRow => c.Publish?
    case InvalidRow => c.Invalid?
    case ConflictRow => c.Conflict?
  }

  /** One call for each row, of this kind and in this order, with the last message of the row's id;
      an invalid row sends its own errors. */
  ghost predicate OneEach(calls: seq<Call>, kind: Kind, rows: seq<Event>, messages: seq<Event>, normalize: Normalize) {
    |calls| == |rows|
    && forall i :: 0 <= i < |rows| ==>
         OfKind(calls[i], kind) && calls[i].event.eventId == rows[i].eventId && IsLast(messages, calls[i].event)
         && (calls[i].Invalid? ==> calls[i].errors == Joined(Errors(normalize(rows[i]))))
  }

  lemma CallsOneEach(kind: Kind, rows: seq<Event>, messages: seq<Event>, normalize: Normalize)
    requires forall r :: r in rows ==> r in messages
    ensures OneEach(Calls(kind, rows, Index(messages), normalize), kind, rows, messages, normalize)
  {
    LookupNeverMisses(kind, rows, messages, normalize);
    forall i | 0 <= i < |rows|
      ensures var m := Index(messages)[rows[i].eventId]; m.eventId == rows[i].eventId && IsLast(messages, m)
    {
      IndexHoldsLast(messages, rows[i].eventId);
    }
  }

  /** Every call of a batch. Each invalid row goes to the invalid sink with its own errors, each row of
      the conflicts to the invalid sink as a conflict, each deduplicated row to the validated one; the
      event sent is the last message of the row's id. */
  lemma CallsExactly(messages: seq<Event>, seen: Seen, normalize: Normalize, fp: Fingerprint)
    ensures var p := PlanOf(messages, seen, normalize, fp);
            && p.split == Dedup(seen, Filter(messages, true, normalize), fp).1
            && AllCalls(p) == p.invalid + p.conflict + p.valid
            && OneEach(p.invalid, InvalidRow, Filter(messages, false, normalize), messages, normalize)
            && OneEach(p.conflict, ConflictRow, p.split.conflicts, messages, normalize)
            && OneEach(p.valid, ValidRow, p.split.deduplicated, messages, normalize)
  {
    var p := PlanOf(messages, seen, normalize, fp);
    FilterParts(messages, normalize);
    SplitFromBatch(seen, Filter(messages, true, normalize), fp);
    CallsOneEach(InvalidRow, Filter(messages, false, normalize), messages, normalize);
    CallsOneEach(ConflictRow, p.split.conflicts, messages, normalize);
    CallsOneEach(ValidRow, p.split.deduplicated, messages, normalize);
  }

  lemma SplitFromBatch(seen: Seen, rows: seq<Event>, fp: Fingerprint)
    ensures var r := Dedup(seen, rows, fp).1;
            forall e :: e in r.deduplicated || e in r.conflicts ==> e in rows
  {
    var flags := if seen.Some? then CheckRows(seen.value, rows, fp).flags else NoFlags(|rows|);
    PickFromRows(rows, Neither(DuplicateMarks(rows, flags, fp), ConflictMarks(rows, fp)));
    PickFromRows(rows, ConflictMarks(rows, fp));
  }

  // ---------------------------------------------------------------- contradictions are not published

  /** With or without a state, the conflicts are the rows of the events whose rows disagree, all of
      them and in order, and nothing of these events is let through. */
  lemma ConflictsExactly(seen: Seen, rows: seq<Event>, fp: Fingerprint, id: string)
    ensures var r := Dedup(seen, rows, fp).1;
            Only(r.conflicts, id) == (if Clashing(rows, id, fp) then Only(rows, id) else [])
            && (Clashing(rows, id, fp) ==> !Has(r.deduplicated, id))
  {
    var r := Dedup(seen, rows, fp).1;
    var flags := if seen.Some? then CheckRows(seen.value, rows, fp).flags else NoFlags(|rows|);
    var a, b := DuplicateMarks(rows, flags, fp), ConflictMarks(rows, fp);
    forall i | 0 <= i < |rows| && rows[i].eventId == id ensures b[i] == Clashing(rows, id, fp) {
      ClashingIff(rows, rows[i], fp);
    }
    PickWhole(rows, b, id, Clashing(rows, id, fp));
    if Clashing(rows, id, fp) {
      PickWhole(rows, Neither(a, b), id, false);
      OnlyEmpty(r.deduplicated, id);
    }
  }

  /** The calls about one event. */
  function CallsOn(calls: seq<Call>, id: string): seq<Call> {
    if calls == [] then []
    else
      var c := calls[|calls| - 1];
      CallsOn(calls[..|calls| - 1], id) + (if c.event.eventId == id then [c] else [])
  }

  lemma {:induction false} CallsOnRows(calls: seq<Call>, rows: seq<Event>, id: string)
    requires |calls| == |rows| && forall i :: 0 <= i < |rows| ==> calls[i].event.eventId == rows[i].eventId
    ensures |CallsOn(calls, id)| == |Only(rows, id)|
  {
    if rows != [] {
      CallsOnRows(calls[..|calls| - 1], rows[..|rows| - 1], id);
    }
  }

  /** A batch publishes nothing of an event whose valid rows disagree, and reports each of these rows
      once; of any other event it reports no conflict. */
  lemma ContradictionsReported(messages: seq<Event>, seen: Seen, normalize: Normalize, fp: Fingerprint, id: string)
    ensures var p, valid := PlanOf(messages, seen, normalize, fp), Filter(messages, true, normalize);
            && (Clashing(valid, id, fp) ==> forall c :: c in AllCalls(p) && c.Publish? ==> c.event.eventId != id)
            && |CallsOn(p.conflict, id)| == (if Clashing(valid, id, fp) then |Only(valid, id)| else 0)
  {
    CallsExactly(messages, seen, normalize, fp);
    ConflictsExactly(seen, Filter(messages, true, normalize), fp, id);
    ReportedOnce(PlanOf(messages, seen, normalize, fp), Filter(messages, true, normalize), messages, normalize, fp, id);
  }

  lemma ReportedOnce(p: Plan, valid: seq<Event>, messages: seq<Event>, normalize: Normalize, fp: Fingerprint, id: string)
    requires Only(p.split.conflicts, id) == (if Clashing(valid, id, fp) then Only(valid, id) else [])
    requires Clashing(valid, id, fp) ==> !Has(p.split.deduplicated, id)
    requires OneEach(p.invalid, InvalidRow, Filter(messages, false, normalize), messages, normalize)
    requires OneEach(p.conflict, ConflictRow, p.split.conflicts, messages, normalize)
    requires OneEach(p.valid, ValidRow, p.split.deduplicated, messages, normalize)
    ensures Clashing(valid, id, fp) ==> forall c :: c in AllCalls(p) && c.Publish? ==> c.event.eventId != id
    ensures |CallsOn(p.conflict, id)| == (if Clashing(valid, id, fp) then |Only(valid, id)| else 0)
  {
    CallsOnRows(p.conflict, p.split.conflicts, id);
    if Clashing(valid, id, fp) {
      NotPublished(p, messages, normalize, id);
    }
  }

  lemma NotPublished(p: Plan, messages: seq<Event>, normalize: Normalize, id: string)
    requires !Has(p.split.deduplicated, id) && OneEach(p.valid, ValidRow, p.split.deduplicated, messages, normalize)
    requires (forall c :: c in p.invalid ==> c.Invalid?) && (forall c :: c in p.conflict ==> c.Conflict?)
    ensures forall c :: c in AllCalls(p) && c.Publish? ==> c.event.eventId != id
  {
    forall c | c in AllCalls(p) && c.Publish? ensures c.event.eventId != id {
      var i :| 0 <= i < |p.valid| && p.valid[i] == c;
      assert p.split.deduplicated[i] in p.split.deduplicated;
    }
  }

  // ---------------------------------------------------------------- the counters are those of the calls

  function Number(calls: seq<Call>, kind: Kind): nat {
    if calls == [] then 0
    else Number(calls[..|calls| - 1], kind) + (if OfKind(calls[|calls| - 1], kind) then 1 else 0)
  }

  lemma {:induction false} NumberConcat(a: seq<Call>, b: seq<Call>, kind: Kind)
    ensures Number(a + b, kind) == Number(a, kind) + Number(b, kind)
  {
    if b == [] {
      assert a + b == a;
    } else {
      assert (a + b)[..|a + b| - 1] == a + b[..|b| - 1];
      NumberConcat(a, b[..|b| - 1], kind);
    }
  }

  lemma {:induction false} NumberOfOneKind(calls: seq<Call>, kind: Kind, k: Kind)
    requires forall i :: 0 <= i < |calls| ==> OfKind(calls[i], kind)
    ensures Number(calls, k) == if k == kind then |calls| else 0
  {
    if calls != [] {
      NumberOfOneKind(calls[..|calls| - 1], kind, k);
    }
  }

  lemma NumberInParts(invalid: seq<Call>, conflict: seq<Call>, valid: seq<Call>, k: Kind)
    requires forall i :: 0 <= i < |invalid| ==> OfKind(invalid[i], InvalidRow)
    requires forall i :: 0 <= i < |conflict| ==> OfKind(conflict[i], ConflictRow)
    requires forall i :: 0 <= i < |valid| ==> OfKind(valid[i], ValidRow)
    ensures Number(invalid + conflict + valid, k)
         == match k case InvalidRow => |invalid| case ConflictRow => |conflict| case ValidRow => |valid|
  {
    NumberConcat(invalid, conflict, k);
    NumberConcat(invalid + conflict, valid, k);
    NumberOfOneKind(invalid, InvalidRow, k);
    NumberOfOneKind(conflict, ConflictRow, k);
    NumberOfOneKind(valid, ValidRow, k);
  }

  /** The result of a batch counts the calls it made, and the duplicates it dropped. */
  lemma CountersAreCalls(messages: seq<Event>, seen: Seen, normalize: Normalize, fp: Fingerprint)
    ensures var p := PlanOf(messages, seen, normalize, fp);
            var r, calls := ResultOf(p), AllCalls(p);
            && r.publishedValid == Number(calls, ValidRow)
            && r.publishedInvalid == Number(calls, InvalidRow) + Number(calls, ConflictRow)
            && r.conflicts == Number(calls, ConflictRow)
            && r.duplicatesSkipped == |p.split.duplicates|
  {
    var p := PlanOf(messages, seen, normalize, fp);
    CallsExactly(messages, seen, normalize, fp);
    NumberInParts(p.invalid, p.conflict, p.valid, ValidRow);
    NumberInParts(p.invalid, p.conflict, p.valid, InvalidRow);
    NumberInParts(p.invalid, p.conflict, p.valid, ConflictRow);
  }

  /** A sink that raises delivered the calls before, and its own exactly when it took effect. */
  lemma DeliveredExactly(p: Plan, before: Seen, fault: Fault)
    ensures var calls, sent := AllCalls(p), Effect(p, before, FRESH, fault).sent;
            if fault.Raises? && fault.at < |calls| then
              sent.delivered == calls[..if fault.took then fault.at + 1 else fault.at]
              && sent.made == fault.at + 1 && sent.raised
            else
              sent.delivered == calls && sent.made == |calls| && !sent.raised
  {
    if fault.Raises? && fault.at < |AllCalls(p)| {
      assert AllCalls(p)[..fault.at] + [AllCalls(p)[fault.at]] == AllCalls(p)[..fault.at + 1];
    }
  }
}
