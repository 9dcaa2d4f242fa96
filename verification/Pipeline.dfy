/** The processor pipeline: validation, deduplication, and ordered publication to two sinks that may
    fail at any call. */
module Pipeline {
  import opened Common
  import opened Events
  import opened Validation
  import opened Deduplication

  // ---------------------------------------------------------------- sinks

  /** One call of a sink: a validated event, or the diagnostic envelope of one. */
  datatype Call =
    | Publish(event: Event)
    | Invalid(event: Event, errors: string)
    | Conflict(event: Event)

  /** What the sinks have received, how many calls were made, and whether the last one raised. */
  datatype Sent = Sent(delivered: seq<Call>, made: nat, raised: bool)

  /** Call number `at` raises; `took` says whether it was delivered nevertheless. */
  datatype Fault = NoFault | Raises(at: nat, took: bool)

  function Transmit(s: Sent, calls: seq<Call>, fault: Fault): Sent {
    if s.raised then s
    else if fault.Raises? && s.made <= fault.at < s.made + |calls| then
      var k := fault.at - s.made;
      Sent(s.delivered + calls[..k] + (if fault.took then [calls[k]] else []), fault.at + 1, true)
    else Sent(s.delivered + calls, s.made + |calls|, false)
  }

  lemma TransmitConcat(s: Sent, a: seq<Call>, b: seq<Call>, fault: Fault)
    ensures Transmit(Transmit(s, a, fault), b, fault) == Transmit(s, a + b, fault)
  {
    if !s.raised && fault.Raises? && s.made <= fault.at < s.made + |a + b| {
      var k := fault.at - s.made;
      if k < |a| {
        assert (a + b)[..k] == a[..k];
      } else {
        assert (a + b)[..k] == a + b[..k - |a|];
      }
    }
  }

  class Sinks {
    var sent: Sent
    const fault: Fault

    constructor (fault: Fault)
      ensures sent == Sent([], 0, false) && this.fault == fault
    {
      sent, this.fault := Sent([], 0, false), fault;
    }

    method Send(call: Call) returns (ok: bool)
      requires !sent.raised
      modifies this
      ensures sent == Transmit(old(sent), [call], fault) && ok == !sent.raised
    {
      ok := !(fault.Raises? && fault.at == sent.made);
      var got := if ok || fault.took then [call] else [];
      sent := Sent(sent.delivered + got, sent.made + 1, !ok);
    }
  }

  // ---------------------------------------------------------------- the calls of a batch

  /** The row of an event after normalization, which keeps the event id. */
  type Normalize = Event -> Normalized

  predicate IsValid(e: Event, normalize: Normalize) {
    !HasErrors(normalize(e))
  }

  function Filter(rows: seq<Event>, valid: bool, normalize: Normalize): seq<Event> {
    if rows == [] then []
    else
      var r := rows[|rows| - 1];
      Filter(rows[..|rows| - 1], valid, normalize) + (if IsValid(r, normalize) == valid then [r] else [])
  }

  /** `event_index`: the last message of each id. */
  function Index(messages: seq<Event>): map<string, Event> {
    if messages == [] then map[]
    else
      var m := messages[|messages| - 1];
      Index(messages[..|messages| - 1])[m.eventId := m]
  }

  datatype Kind = ValidRow | InvalidRow | ConflictRow

  function CallFor(kind: Kind, row: Event, event: Event, normalize: Normalize): Call {
    match kind
    case ValidRow => Publish(event)
    case InvalidRow => Invalid(event, Joined(Errors(normalize(row))))
    case ConflictRow => Conflict(event)
  }

  /** The calls of one publish loop; a row whose id is not in the index is skipped. */
  function Calls(kind: Kind, rows: seq<Event>, index: map<string, Event>, normalize: Normalize): seq<Call> {
    if rows == [] then []
    else
      var r := rows[|rows| - 1];
      Calls(kind, rows[..|rows| - 1], index, normalize)
      + (if r.eventId in index then [CallFor(kind, r, index[r.eventId], normalize)] else [])
  }

  datatype PipelineResult = PipelineResult(
    publishedValid: nat, publishedInvalid: nat, duplicatesSkipped: nat, conflicts: nat)
  {
    /** Conflicts are in `publishedInvalid` as well. */
    function Total(): nat {
      publishedValid + publishedInvalid + duplicatesSkipped + conflicts
    }
  }

  /** The state of the deduplicator, if the pipeline has one. */
  type Seen = Option<map<string, int>>

  function Dedup(seen: Seen, rows: seq<Event>, fp: Fingerprint): (Seen, DeduplicationResult) {
    match seen
    case None => (None, Split(rows, NoFlags(|rows|), fp))
    case Some(s) => var (s', r) := DeduplicateWith(s, rows, fp); (Some(s'), r)
  }

  datatype Plan = Plan(invalid: seq<Call>, conflict: seq<Call>, valid: seq<Call>, split: DeduplicationResult, seen: Seen)

  function PlanWith(index: map<string, Event>, invalid: seq<Event>, valid: seq<Event>, seen: Seen, normalize: Normalize,
                    fp: Fingerprint): Plan
  {
    var (seen', split) := Dedup(seen, valid, fp);
    Plan(Calls(InvalidRow, invalid, index, normalize), Calls(ConflictRow, split.conflicts, index, normalize),
         Calls(ValidRow, split.deduplicated, index, normalize), split, seen')
  }

  /** The whole call sequence of a batch. */
  function PlanOf(messages: seq<Event>, seen: Seen, normalize: Normalize, fp: Fingerprint): Plan {
    PlanWith(Index(messages), Filter(messages, false, normalize), Filter(messages, true, normalize), seen, normalize, fp)
  }

  datatype Outcome = Outcome(sent: Sent, seen: Seen, result: Option<PipelineResult>)

  /** The effect of a batch whose plan is `p`. The deduplication state has moved on, unless the sink
      of an invalid row raised. */
  function Effect(p: Plan, before: Seen, sent: Sent, fault: Fault): Outcome {
    var after := Transmit(sent, AllCalls(p), fault);
    Outcome(after, if Transmit(sent, p.invalid, fault).raised then before else p.seen,
            if after.raised then None else Some(ResultOf(p)))
  }

  function ResultOf(p: Plan): PipelineResult {
    PipelineResult(|p.split.deduplicated|, |p.invalid| + |p.conflict|, |p.split.duplicates|, |p.conflict|)
  }

  function AllCalls(p: Plan): seq<Call> {
    p.invalid + p.conflict + p.valid
  }

  // ---------------------------------------------------------------- the class

  class ProcessorPipeline {
    const sinks: Sinks
    const state: DeduplicationState?

    constructor (sinks: Sinks, state: DeduplicationState?)
      ensures this.sinks == sinks && this.state == state
    {
      this.sinks, this.state := sinks, state;
    }

    ghost function Seen(): Seen
      reads this, state
    {
      if state == null then None else Some(state.seen)
    }

    /** One publish loop; `ok` is false when a sink raised, which ends the loop. */
    method PublishRows(kind: Kind, rows: seq<Event>, index: map<string, Event>, normalize: Normalize)
      returns (made: nat, ok: bool)
      requires !sinks.sent.raised
      modifies sinks
      ensures sinks.sent == Transmit(old(sinks.sent), Calls(kind, rows, index, normalize), sinks.fault)
      ensures ok == !sinks.sent.raised && (ok ==> made == |Calls(kind, rows, index, normalize)|)
    {
      made, ok := 0, true;
      for i := 0 to |rows|
        invariant sinks.sent == Transmit(old(sinks.sent), Calls(kind, rows[..i], index, normalize), sinks.fault)
        invariant !sinks.sent.raised && made == |Calls(kind, rows[..i], index, normalize)|
      {
        assert rows[..i + 1][..i] == rows[..i];
        if rows[i].eventId in index {
          var call := CallFor(kind, rows[i], index[rows[i].eventId], normalize);
          TransmitConcat(old(sinks.sent), Calls(kind, rows[..i], index, normalize), [call], sinks.fault);
          ok := sinks.Send(call);
          if !ok {
            StaysRaised(old(sinks.sent), kind, rows, i + 1, index, normalize, sinks.fault);
            return;
          }
          made := made + 1;
        } else {
          assert Calls(kind, rows[..i + 1], index, normalize) == Calls(kind, rows[..i], index, normalize);
        }
      }
      assert rows[..|rows|] == rows;
    }

    method BuildIndex(messages: seq<Event>) returns (index: map<string, Event>)
      ensures index == Index(messages)
    {
      index := map[];
      for i := 0 to |messages|
        invariant index == Index(messages[..i])
      {
        assert messages[..i + 1][..i] == messages[..i];
        index := index[messages[i].eventId := messages[i]];
      }
      assert messages[..|messages|] == messages;
    }

    /** Deduplicates the valid rows and publishes conflicts, then unique rows. */
    method RouteValid(rows: seq<Event>, index: map<string, Event>, normalize: Normalize, fp: Fingerprint)
      returns (split: DeduplicationResult, conflicts: nat, ok: bool)
      requires !sinks.sent.raised
      modifies sinks, state
      ensures (Seen(), split) == Dedup(old(Seen()), rows, fp)
      ensures sinks.sent == Transmit(old(sinks.sent), Calls(ConflictRow, split.conflicts, index, normalize)
                                                      + Calls(ValidRow, split.deduplicated, index, normalize), sinks.fault)
      ensures ok == !sinks.sent.raised && (ok ==> conflicts == |Calls(ConflictRow, split.conflicts, index, normalize)|)
    {
      split := Deduplicate(rows, state, fp);
      TransmitConcat(sinks.sent, Calls(ConflictRow, split.conflicts, index, normalize),
                     Calls(ValidRow, split.deduplicated, index, normalize), sinks.fault);
      conflicts, ok := PublishRows(ConflictRow, split.conflicts, index, normalize);
      if ok {
        var published;
        published, ok := PublishRows(ValidRow, split.deduplicated, index, normalize);
      }
    }

    method Route(index: map<string, Event>, invalid: seq<Event>, valid: seq<Event>, normalize: Normalize, fp: Fingerprint)
      returns (r: Option<PipelineResult>)
      requires !sinks.sent.raised
      modifies sinks, state
      ensures Outcome(sinks.sent, Seen(), r)
           == Effect(PlanWith(index, invalid, valid, old(Seen()), normalize, fp), old(Seen()), old(sinks.sent), sinks.fault)
    {
      ghost var p := PlanWith(index, invalid, valid, Seen(), normalize, fp);
      TransmitConcat(sinks.sent, p.invalid, p.conflict + p.valid, sinks.fault);
      assert AllCalls(p) == p.invalid + (p.conflict + p.valid);
      var rejected, ok := PublishRows(InvalidRow, invalid, index, normalize);
      if !ok {
        return None;
      }
      var split, conflicts, delivered := RouteValid(valid, index, normalize, fp);
      r := if delivered
           then Some(PipelineResult(|split.deduplicated|, rejected + conflicts, |split.duplicates|, conflicts))
           else None;
    }

    /** Publishes the outcome of a batch, or raises (`None`) at the first sink that does. */
    method ProcessBatch(messages: seq<Event>, normalize: Normalize, fp: Fingerprint)
      returns (r: Option<PipelineResult>)
      requires !sinks.sent.raised
      modifies sinks, state
      ensures Outcome(sinks.sent, Seen(), r)
           == Effect(PlanOf(messages, old(Seen()), normalize, fp), old(Seen()), old(sinks.sent), sinks.fault)
    {
      var index := BuildIndex(messages);
      r := Route(index, Filter(messages, false, normalize), Filter(messages, true, normalize), normalize, fp);
    }
  }

  lemma {:induction false} StaysRaised(s: Sent, kind: Kind, rows: seq<Event>, i: nat, index: map<string, Event>,
                                       normalize: Normalize, fault: Fault)
    requires i <= |rows| && Transmit(s, Calls(kind, rows[..i], index, normalize), fault).raised
    ensures Transmit(s, Calls(kind, rows, index, normalize), fault) == Transmit(s, Calls(kind, rows[..i], index, normalize), fault)
    decreases |rows|
  {
    if i == |rows| {
      assert rows[..i] == rows;
    } else {
      var init, r := rows[..|rows| - 1], rows[|rows| - 1];
      assert init[..i] == rows[..i];
      StaysRaised(s, kind, init, i, index, normalize, fault);
      var last := if r.eventId in index then [CallFor(kind, r, index[r.eventId], normalize)] else [];
      TransmitConcat(s, Calls(kind, init, index, normalize), last, fault);
    }
  }
}
