/** The managed Kafka consumer and the Bronze writer it drives.

    Everything outside the process is a script: each external call says in advance whether it
    returns, and if it raises, whether it took effect first. A process killed inside a call
    leaves the broker and the store as a call that raised does, so the scripts cover crashes. */
module Kafka {
  import opened Common
  import opened Schema
  import opened Events
  import opened PartitionKey

  type Partition = nat

  /** A log entry, by what deserialising its bytes yields. */
  datatype Record = Valid(event: Event) | Malformed

  type Objects = map<string, Row>

  /** How `process_next` classifies what a handler raises. */
  datatype ErrorKind = Transient | Permanent | Unexpected

  datatype PutOutcome = Stored | PutRaised(stored: bool, kind: ErrorKind)

  /** One handler call; `signal` says whether a shutdown signal arrives before the next check. */
  datatype Attempt = Attempt(put: PutOutcome, signal: bool)

  /** Quiet covers no message, end of partition and transport errors. */
  datatype PollEvent = Quiet | BrokerError | Fetch(partition: Partition, metadata: bool)

  datatype CommitOutcome = Committed | CommitRaised(stored: bool)

  datatype Call = Call(
    poll: PollEvent, pollSignal: bool,
    attempts: seq<Attempt>,
    acknowledged: bool,
    commit: CommitOutcome, lateSignal: bool)

  datatype Outcome = Returned(value: bool) | Raised

  datatype RetryPolicy = RetryPolicy(maxAttempts: nat, backoffSeconds: real)

  datatype PolicyError = MaxAttemptsOutOfRange | BackoffOutOfRange

  function MakeRetryPolicy(maxAttempts: int, backoffSeconds: real): (r: Result<RetryPolicy, PolicyError>)
    ensures r.Ok? <==> 1 <= maxAttempts <= 10 && 0.0 <= backoffSeconds <= 5.0
    ensures r.Ok? ==> ValidPolicy(r.value) && r.value == RetryPolicy(maxAttempts, backoffSeconds)
  {
    if !(1 <= maxAttempts <= 10) then Err(MaxAttemptsOutOfRange)
    else if !(0.0 <= backoffSeconds <= 5.0) then Err(BackoffOutOfRange)
    else Ok(RetryPolicy(maxAttempts, backoffSeconds))
  }

  predicate ValidPolicy(p: RetryPolicy) {
    1 <= p.maxAttempts <= 10 && 0.0 <= p.backoffSeconds <= 5.0
  }

  /** Broker, object store, the consumer process, and two history sets: the offsets whose
      handler returned and those the dead-letter sink acknowledged. */
  datatype World = World(
    logs: map<Partition, seq<Record>>,
    committed: map<Partition, nat>,
    objects: Objects,
    open: bool,
    shutdown: bool,
    position: map<Partition, nat>,
    consumed: nat,
    processed: nat,
    deadLettered: nat,
    succeeded: set<(Partition, nat)>,
    acked: set<(Partition, nat)>)

  // ---------------------------------------------------------------- specification of one call

  function ObjectKey(e: Event): string { BuildPartitionKey(e, Bronze) }

  /** What the writer makes of an event. */
  datatype Job = Job(key: string, row: Row)

  function Prepare(e: Event): Job {
    Job(ObjectKey(e), EventToRow(e))
  }

  /** `BronzeWriter.write_event`: the store afterwards, and what was raised if anything. */
  function Write(objects: Objects, job: Job, put: PutOutcome): (Objects, Option<ErrorKind>) {
    match put
    case Stored => (objects[job.key := job.row], None)
    case PutRaised(stored, kind) => (if stored then objects[job.key := job.row] else objects, Some(kind))
  }

  function Nth(attempts: seq<Attempt>, i: nat): Attempt {
    if i < |attempts| then attempts[i] else Attempt(PutRaised(false, Unexpected), false)
  }

  datatype Ending = Success | Failure | Stopped | Crashed

  datatype Attempts = Attempts(ending: Ending, objects: Objects, shutdown: bool, calls: nat, slept: real)

  /** The retry loop from its `i`-th attempt on. */
  function RunAttempts(objects: Objects, shutdown: bool, job: Job, script: seq<Attempt>, policy: RetryPolicy, i: nat): Attempts
    requires 1 <= i
    decreases policy.maxAttempts - i
  {
    if i > policy.maxAttempts then Attempts(Failure, objects, shutdown, 0, 0.0)
    else if shutdown then Attempts(Stopped, objects, shutdown, 0, 0.0)
    else
      var a := Nth(script, i - 1);
      var (objects', raised) := Write(objects, job, a.put);
      match raised
      case None => Attempts(Success, objects', a.signal, 1, 0.0)
      case Some(Unexpected) => Attempts(Crashed, objects', a.signal, 1, 0.0)
      case Some(Permanent) => Attempts(Failure, objects', a.signal, 1, 0.0)
      case Some(Transient) =>
        var rest := RunAttempts(objects', a.signal, job, script, policy, i + 1);
        rest.(calls := rest.calls + 1,
              slept := rest.slept + (if i < policy.maxAttempts then policy.backoffSeconds * i as real else 0.0))
  }

  datatype Polled = Nothing | PollFailed | Got(partition: Partition, offset: nat, record: Record)

  function Poll(w: World, poll: PollEvent, signal: bool): (World, Polled) {
    if !w.open then (w, PollFailed)
    else if w.shutdown then (w, Nothing)
    else
      var w1 := w.(shutdown := signal);
      match poll
      case Quiet => (w1, Nothing)
      case BrokerError => (w1, PollFailed)
      case Fetch(p, metadata) =>
        if p !in w.logs || p !in w.position || w.position[p] >= |w.logs[p]| then (w1, Nothing)
        else
          var off := w.position[p];
          var w2 := w1.(position := w.position[p := off + 1], consumed := w.consumed + 1);
          (w2, if metadata then Got(p, off, w.logs[p][off]) else PollFailed)
  }

  /** Dead-letter if needed, then commit: the tail of `process_next`. */
  function Resolve(w: World, p: Partition, off: nat, failed: bool, call: Call): (World, Outcome) {
    if w.shutdown then (w.(open := false), Returned(false))
    else if failed && !call.acknowledged then
      (w.(open := false, shutdown := call.lateSignal), Raised)
    else
      var w1 := w.(shutdown := call.lateSignal);
      var w2 := if failed then w1.(acked := w.acked + {(p, off)}, deadLettered := w.deadLettered + 1) else w1;
      match call.commit
      case CommitRaised(stored) =>
        (w2.(committed := if stored then w.committed[p := off + 1] else w.committed, open := false), Raised)
      case Committed =>
        (w2.(committed := w.committed[p := off + 1], processed := if failed then w.processed else w.processed + 1),
         Returned(true))
  }

  /** What distinguishes one consuming service from another: its retry policy, and the key and
      row its writer makes of an event. Bronze and Silver writers differ only there. */
  datatype Service = Service(retry: RetryPolicy, prepare: Event -> Job)

  function BronzeService(retry: RetryPolicy): Service {
    Service(retry, e => Prepare(e))
  }

  /** What follows the retry loop. */
  function Finish(w: World, a: Attempts, p: Partition, off: nat, call: Call): (World, Outcome) {
    var w1 := w.(objects := a.objects, shutdown := a.shutdown);
    match a.ending
    case Stopped => (w1.(open := false), Returned(false))
    case Crashed => (w1.(open := false), Raised)
    case Success => Resolve(w1.(succeeded := w.succeeded + {(p, off)}), p, off, false, call)
    case Failure => Resolve(w1, p, off, true, call)
  }

  function Handle(w: World, p: Partition, off: nat, e: Event, call: Call, service: Service): (World, Outcome) {
    var a := RunAttempts(w.objects, w.shutdown, service.prepare(e), call.attempts, service.retry, 1);
    Finish(w, a, p, off, call)
  }

  function ProcessNext(w: World, call: Call, service: Service): (World, Outcome) {
    var (w1, polled) := Poll(w, call.poll, call.pollSignal);
    match polled
    case PollFailed => (w1.(open := false), Raised)
    case Nothing => (w1, Returned(false))
    case Got(p, off, Malformed) => Resolve(w1, p, off, true, call)
    case Got(p, off, Valid(e)) => Handle(w1, p, off, e, call, service)
  }

  // ---------------------------------------------------------------- the classes

  class Broker {
    var logs: map<Partition, seq<Record>>
    var committed: map<Partition, nat>
  }

  class MinIOStorage {
    var objects: Objects

    method PutObject(key: string, body: Row, outcome: PutOutcome) returns (raised: Option<ErrorKind>)
      modifies this
      ensures objects == if outcome == Stored || outcome.stored then old(objects)[key := body] else old(objects)
      ensures raised == if outcome == Stored then None else Some(outcome.kind)
    {
      if outcome == Stored || outcome.stored {
        objects := objects[key := body];
      }
      raised := if outcome == Stored then None else Some(outcome.kind);
    }
  }

  class BronzeWriter {
    const storage: MinIOStorage

    constructor (storage: MinIOStorage)
      ensures this.storage == storage
    {
      this.storage := storage;
    }

    method WriteEvent(e: Event, outcome: PutOutcome) returns (raised: Option<ErrorKind>)
      modifies storage
      ensures (storage.objects, raised) == Write(old(storage.objects), Prepare(e), outcome)
      ensures outcome.Stored? || outcome.stored ==>
                BuildPartitionKey(e, Bronze) in storage.objects && HoldsEvent(storage.objects[BuildPartitionKey(e, Bronze)], e)
      ensures raised.None? <==> outcome.Stored?
    {
      RowHoldsEvent(e);
      var row := EventToRow(e);
      var violations := ValidateRowAgainstSchema(row, BRONZE_SCHEMA);
      if violations != [] {
        // The schema check never rejects a row the writer built.
        RowsConformToBronze(e);
        assert false;
      }
      raised := storage.PutObject(ObjectKey(e), row, outcome);
    }
  }

  class KafkaConsumer {
    const broker: Broker
    var closed: bool
    var shutdownRequested: bool
    var position: map<Partition, nat>
    var consumed: nat
    var processed: nat
    var deadLettered: nat
    ghost var succeeded: set<(Partition, nat)>
    ghost var acked: set<(Partition, nat)>

    ghost function View(storage: MinIOStorage): World
      reads this, broker, storage
    {
      World(broker.logs, broker.committed, storage.objects, !closed, shutdownRequested, position,
            consumed, processed, deadLettered, succeeded, acked)
    }

    /** A new process of the same group starts from the committed offsets. */
    constructor (broker: Broker)
      ensures this.broker == broker && !closed && !shutdownRequested && position == broker.committed
      ensures consumed == processed == deadLettered == 0
    {
      this.broker := broker;
      closed, shutdownRequested, position := false, false, broker.committed;
      consumed, processed, deadLettered := 0, 0, 0;
    }

    method PollRecord(poll: PollEvent, signal: bool, ghost storage: MinIOStorage) returns (polled: Polled)
      modifies this`shutdownRequested, this`position, this`consumed
      ensures (View(storage), polled) == Poll(old(View(storage)), poll, signal)
    {
      if closed {
        return PollFailed;
      }
      if shutdownRequested {
        return Nothing;
      }
      shutdownRequested := signal;
      match poll
      case Quiet => return Nothing;
      case BrokerError => return PollFailed;
      case Fetch(p, metadata) =>
        if p !in broker.logs || p !in position || position[p] >= |broker.logs[p]| {
          return Nothing;
        }
        var off := position[p];
        position, consumed := position[p := off + 1], consumed + 1;
        return if metadata then Got(p, off, broker.logs[p][off]) else PollFailed;
    }

    method CommitOffset(p: Partition, next: nat, outcome: CommitOutcome) returns (raised: bool)
      modifies broker`committed
      ensures raised <==> closed || outcome.CommitRaised?
      ensures broker.committed == if !closed && (outcome.Committed? || outcome.stored)
                                  then old(broker.committed)[p := next] else old(broker.committed)
    {
      if closed {
        return true;
      }
      if outcome.Committed? || outcome.stored {
        broker.committed := broker.committed[p := next];
      }
      raised := outcome.CommitRaised?;
    }

    method ProcessNextRecord(writer: BronzeWriter, call: Call, retry: RetryPolicy) returns (outcome: Outcome)
      modifies this, broker, writer.storage
      ensures (View(writer.storage), outcome) == ProcessNext(old(View(writer.storage)), call, BronzeService(retry))
    {
      var polled := PollRecord(call.poll, call.pollSignal, writer.storage);
      match polled
      case PollFailed =>
        closed := true;
        outcome := Raised;
      case Nothing =>
        outcome := Returned(false);
      case Got(p, off, Malformed) =>
        outcome := ResolveRecord(p, off, true, call, writer.storage);
      case Got(p, off, Valid(e)) =>
        outcome := HandleRecord(writer, p, off, e, call, retry);
    }

    method HandleRecord(writer: BronzeWriter, p: Partition, off: nat, e: Event, call: Call, retry: RetryPolicy)
      returns (outcome: Outcome)
      requires !closed
      modifies this, broker, writer.storage
      ensures (View(writer.storage), outcome) == Handle(old(View(writer.storage)), p, off, e, call, BronzeService(retry))
    {
      var ending := RunHandler(writer, e, call.attempts, retry);
      match ending
      case Stopped =>
        closed := true;
        outcome := Returned(false);
      case Crashed =>
        closed := true;
        outcome := Raised;
      case Success =>
        succeeded := succeeded + {(p, off)};
        outcome := ResolveRecord(p, off, false, call, writer.storage);
      case Failure =>
        outcome := ResolveRecord(p, off, true, call, writer.storage);
    }

    method ResolveRecord(p: Partition, off: nat, failed: bool, call: Call, ghost storage: MinIOStorage)
      returns (outcome: Outcome)
      modifies this, broker`committed
      requires !closed
      ensures (View(storage), outcome) == Resolve(old(View(storage)), p, off, failed, call)
    {
      if shutdownRequested {
        closed := true;
        return Returned(false);
      }
      shutdownRequested := call.lateSignal;
      if failed {
        if !call.acknowledged {
          closed := true;
          return Raised;
        }
        acked, deadLettered := acked + {(p, off)}, deadLettered + 1;
      }
      var raised := CommitOffset(p, off + 1, call.commit);
      if raised {
        closed := true;
        return Raised;
      }
      if !failed {
        processed := processed + 1;
      }
      outcome := Returned(true);
    }

    /** The bounded retry loop around the handler. */
    method RunHandler(writer: BronzeWriter, e: Event, script: seq<Attempt>, retry: RetryPolicy) returns (ending: Ending)
      modifies this`shutdownRequested, writer.storage
      ensures var a := RunAttempts(old(writer.storage.objects), old(shutdownRequested), Prepare(e), script, retry, 1);
              ending == a.ending && writer.storage.objects == a.objects && shutdownRequested == a.shutdown
    {
      var attempts := 1;
      ending := Failure;
      while attempts <= retry.maxAttempts
        invariant 1 <= attempts
        invariant var all := RunAttempts(old(writer.storage.objects), old(shutdownRequested), Prepare(e), script, retry, 1);
                  var rest := RunAttempts(writer.storage.objects, shutdownRequested, Prepare(e), script, retry, attempts);
                  all.ending == rest.ending && all.objects == rest.objects && all.shutdown == rest.shutdown
        decreases retry.maxAttempts + 1 - attempts
      {
        if shutdownRequested {
          return Stopped;
        }
        var a := Nth(script, attempts - 1);
        var raised := writer.WriteEvent(e, a.put);
        shutdownRequested := a.signal;
        match raised
        case None => return Success;
        case Some(Transient) => attempts := attempts + 1;
        case Some(Permanent) => return Failure;
        case Some(Unexpected) => return Crashed;
      }
    }
  }
}
