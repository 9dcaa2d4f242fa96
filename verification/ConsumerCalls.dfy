/** What one call of the consumer does, in terms of what happens around it: which attempt decides, when
    the call returns what, and exactly when the consumer stays open. */
module ConsumerCalls {
  import opened Common
  import opened Events
  import opened Schema
  import opened Kafka
  import opened RawWriter
  import ExactlyOnce

  // ---------------------------------------------------------------- the deciding attempt

  /** Attempt `k` of at most `max` is the last one: those before it failed transiently without a
      signal, and it did not, or was the last allowed. */
  ghost predicate DecidedAt(script: seq<Attempt>, max: nat, k: nat) {
    1 <= k <= max && TransientUntil(script, 1, k) && (k == max || !IsTransient(Nth(script, k - 1)))
  }

  lemma {:induction false} SomeAttemptDecides(script: seq<Attempt>, max: nat) returns (k: nat)
    requires 1 <= max
    ensures DecidedAt(script, max, k)
  {
    k := FirstDecisive(script, max, 1);
  }

  lemma {:induction false} FirstDecisive(script: seq<Attempt>, max: nat, i: nat) returns (k: nat)
    requires 1 <= i <= max && TransientUntil(script, 1, i)
    ensures DecidedAt(script, max, k)
    decreases max - i
  {
    if i == max || !IsTransient(Nth(script, i - 1)) {
      k := i;
    } else {
      k := FirstDecisive(script, max, i + 1);
    }
  }

  /** A put among the attempts `i` to `k` took effect. */
  ghost predicate AnyStoredFrom(script: seq<Attempt>, i: nat, k: nat) {
    exists j: nat :: i <= j + 1 <= k && (Nth(script, j).put.Stored? || Nth(script, j).put.stored)
  }

  predicate TransientPut(a: Attempt) {
    a.put.PutRaised? && a.put.kind == Transient
  }

  /** The retry loop ends with the deciding attempt, as that attempt went: success, a permanent failure,
      a crash, or, out of attempts or out of time, what a transient failure leaves. */
  lemma {:induction false} LoopEndsAt(objects: Objects, job: Job, script: seq<Attempt>, policy: RetryPolicy, i: nat, k: nat)
    requires DecidedAt(script, policy.maxAttempts, k) && 1 <= i <= k
    ensures var a, last := RunAttempts(objects, false, job, script, policy, i), Nth(script, k - 1);
            && a.calls == k + 1 - i && a.shutdown == last.signal
            && a.objects == (if AnyStoredFrom(script, i, k) then objects[job.key := job.row] else objects)
            && (last.put == Stored ==> a.ending == Success)
            && (last.put.PutRaised? && last.put.kind == Permanent ==> a.ending == Failure)
            && (last.put.PutRaised? && last.put.kind == Unexpected ==> a.ending == Crashed)
            && (TransientPut(last) ==> a.ending == if k < policy.maxAttempts then Stopped else Failure)
    decreases k - i
  {
    var here := Nth(script, i - 1);
    var next := Write(objects, job, here.put).0;
    assert AnyStoredFrom(script, i, k) <==> (here.put.Stored? || here.put.stored) || AnyStoredFrom(script, i + 1, k) by {
      StoredHereOrLater(script, i, k);
    }
    if i < k {
      assert IsTransient(here);
      LoopEndsAt(next, job, script, policy, i + 1, k);
    }
  }

  /** It sleeps after every failed attempt but the last allowed one. */
  lemma {:induction false} LoopSleeps(objects: Objects, job: Job, script: seq<Attempt>, policy: RetryPolicy, i: nat, k: nat)
    requires DecidedAt(script, policy.maxAttempts, k) && 1 <= i <= k
    ensures RunAttempts(objects, false, job, script, policy, i).slept
         == SleepBudget(policy.backoffSeconds, i,
                        if k < policy.maxAttempts && TransientPut(Nth(script, k - 1)) then k + 1 else k)
    decreases k - i
  {
    var here := Nth(script, i - 1);
    var next := Write(objects, job, here.put).0;
    OneSleep(objects, job, script, policy, i);
    if i < k {
      assert IsTransient(here);
      LoopSleeps(next, job, script, policy, i + 1, k);
    } else if TransientPut(here) && k < policy.maxAttempts {
      assert here.signal;
      assert RunAttempts(next, true, job, script, policy, i + 1).slept == 0.0;
      assert SleepBudget(policy.backoffSeconds, k + 1, k + 1) == 0.0;
    }
  }

  lemma OneSleep(objects: Objects, job: Job, script: seq<Attempt>, policy: RetryPolicy, i: nat)
    requires 1 <= i <= policy.maxAttempts
    ensures var here := Nth(script, i - 1);
            RunAttempts(objects, false, job, script, policy, i).slept
            == if TransientPut(here)
               then RunAttempts(Write(objects, job, here.put).0, here.signal, job, script, policy, i + 1).slept
                    + (if i < policy.maxAttempts then policy.backoffSeconds * i as real else 0.0)
               else 0.0
  {
  }

  lemma StoredHereOrLater(script: seq<Attempt>, i: nat, k: nat)
    requires 1 <= i <= k
    ensures AnyStoredFrom(script, i, k)
       <==> (Nth(script, i - 1).put.Stored? || Nth(script, i - 1).put.stored) || AnyStoredFrom(script, i + 1, k)
  {
    if AnyStoredFrom(script, i, k) {
      var j: nat :| i <= j + 1 <= k && (Nth(script, j).put.Stored? || Nth(script, j).put.stored);
      assert j == i - 1 || i + 1 <= j + 1;
    }
  }

  // ---------------------------------------------------------------- one call

  /** The poll finds a record for the consumer. */
  predicate Fetches(w: World, call: Call) {
    call.poll.Fetch? && call.poll.partition in w.logs && call.poll.partition in w.position
    && w.position[call.poll.partition] < |w.logs[call.poll.partition]|
  }

  function Fetched(w: World, call: Call): Record
    requires Fetches(w, call)
  {
    w.logs[call.poll.partition][w.position[call.poll.partition]]
  }

  /** The call is signalled to stop before the record is resolved. */
  predicate StoppedIn(call: Call, record: Record, last: Attempt) {
    call.pollSignal || (record.Valid? && last.signal && !CrashedIn(record, last))
  }

  /** The handler raised something it should not. */
  predicate CrashedIn(record: Record, last: Attempt) {
    record.Valid? && last.put.PutRaised? && last.put.kind == Unexpected
  }

  /** The record goes to the dead-letter sink. */
  predicate FailedIn(record: Record, last: Attempt) {
    record.Malformed? || last.put.PutRaised?
  }

  /** The consumer closed, and nothing about the record was settled. */
  ghost predicate LeftOpenEnded(w: World, w': World) {
    !w'.open && w'.committed == w.committed && w'.processed == w.processed && w'.deadLettered == w.deadLettered
    && w'.acked == w.acked
  }

  /** What a call makes of the record it fetched, when attempt `last` decides. */
  ghost predicate SettledAs(w: World, w': World, o: Outcome, call: Call, record: Record, last: Attempt)
    requires Fetches(w, call)
  {
    var p, off := call.poll.partition, w.position[call.poll.partition];
    var failed := FailedIn(record, last);
    if !call.poll.metadata then o == Raised && LeftOpenEnded(w, w')
    else if StoppedIn(call, record, last) then o == Returned(false) && LeftOpenEnded(w, w')
    else if CrashedIn(record, last) || (failed && !call.acknowledged) then o == Raised && LeftOpenEnded(w, w')
    else
      && w'.deadLettered == w.deadLettered + (if failed then 1 else 0)
      && w'.acked == (if failed then w.acked + {(p, off)} else w.acked)
      && (call.commit.CommitRaised? ==>
            o == Raised && !w'.open && w'.processed == w.processed
            && w'.committed == if call.commit.stored then w.committed[p := off + 1] else w.committed)
      && (call.commit.Committed? ==>
            o == Returned(true) && w'.open && w'.shutdown == call.lateSignal
            && w'.processed == w.processed + (if failed then 0 else 1) && w'.committed == w.committed[p := off + 1])
  }

  /** The whole effect of a call that fetches a record. */
  lemma FetchingCall(w: World, call: Call, service: Service, k: nat)
    requires w.open && !w.shutdown && Fetches(w, call) && DecidedAt(call.attempts, service.retry.maxAttempts, k)
    ensures var (w', o), record := ProcessNext(w, call, service), Fetched(w, call);
            && w'.logs == w.logs && w'.consumed == w.consumed + 1
            && w'.position == w.position[call.poll.partition := w.position[call.poll.partition] + 1]
            && w'.objects == (if record.Valid? && call.poll.metadata && !call.pollSignal && AnyStoredFrom(call.attempts, 1, k)
                              then w.objects[service.prepare(record.event).key := service.prepare(record.event).row]
                              else w.objects)
            && SettledAs(w, w', o, call, record, Nth(call.attempts, k - 1))
  {
    var record := Fetched(w, call);
    if record.Valid? && call.poll.metadata && !call.pollSignal {
      LoopEndsAt(w.objects, service.prepare(record.event), call.attempts, service.retry, 1, k);
      HandledAs(w, call, service, k);
    }
  }

  lemma HandledAs(w: World, call: Call, service: Service, k: nat)
    requires w.open && !w.shutdown && Fetches(w, call) && DecidedAt(call.attempts, service.retry.maxAttempts, k)
    requires Fetched(w, call).Valid? && call.poll.metadata && !call.pollSignal
    ensures var (w', o), record := ProcessNext(w, call, service), Fetched(w, call);
            && w'.logs == w.logs && w'.consumed == w.consumed + 1
            && w'.position == w.position[call.poll.partition := w.position[call.poll.partition] + 1]
            && w'.objects == (if AnyStoredFrom(call.attempts, 1, k)
                              then w.objects[service.prepare(record.event).key := service.prepare(record.event).row]
                              else w.objects)
            && SettledAs(w, w', o, call, record, Nth(call.attempts, k - 1))
  {
    var e := Fetched(w, call).event;
    LoopEndsAt(w.objects, service.prepare(e), call.attempts, service.retry, 1, k);
    var w1 := Poll(w, call.poll, call.pollSignal).0;
    var a := RunAttempts(w1.objects, w1.shutdown, service.prepare(e), call.attempts, service.retry, 1);
    assert ProcessNext(w, call, service) == Finish(w1, a, call.poll.partition, w.position[call.poll.partition], call);
  }

  /** A call of an open consumer that finds no record returns False and changes nothing but a pending
      shutdown; a broker error raises and closes it. */
  lemma CallWithoutRecord(w: World, call: Call, service: Service)
    requires w.open && !w.shutdown && !Fetches(w, call)
    ensures ProcessNext(w, call, service)
         == if call.poll.BrokerError? then (w.(shutdown := call.pollSignal, open := false), Raised)
            else (w.(shutdown := call.pollSignal), Returned(false))
  {
  }

  /** Once a signal is pending a call does nothing, and a closed consumer refuses. */
  lemma CallThatMayNot(w: World, call: Call, service: Service)
    requires !w.open || w.shutdown
    ensures ProcessNext(w, call, service) == (w, if w.open then Returned(false) else Raised)
  {
  }

  /** Exactly when an open consumer stays open. */
  lemma StaysOpenIff(w: World, call: Call, service: Service, k: nat)
    requires w.open && !w.shutdown && DecidedAt(call.attempts, service.retry.maxAttempts, k)
    ensures ProcessNext(w, call, service).0.open
       <==> && call.poll != BrokerError
            && (Fetches(w, call) ==>
                  var record, last := Fetched(w, call), Nth(call.attempts, k - 1);
                  && call.poll.metadata && !StoppedIn(call, record, last) && !CrashedIn(record, last)
                  && (FailedIn(record, last) ==> call.acknowledged) && call.commit == Committed)
  {
    if Fetches(w, call) {
      FetchingCall(w, call, service, k);
    } else {
      CallWithoutRecord(w, call, service);
    }
  }

  /** Quiet seconds do not matter to the main loop. */
  lemma QuietCallDropped(w: World, quiet: Call, calls: seq<Call>, service: Service)
    requires w.open && !w.shutdown && !Fetches(w, quiet) && quiet.poll != BrokerError && !quiet.pollSignal
    ensures ExactlyOnce.RunConsumerSpec(w, [quiet] + calls, service) == ExactlyOnce.RunConsumerSpec(w, calls, service)
  {
    CallWithoutRecord(w, quiet, service);
    assert ([quiet] + calls)[1..] == calls;
  }

  /** The main loop ends with the first call that raises, and always leaves the consumer closed. */
  lemma {:induction false} MainLoopEnds(w: World, calls: seq<Call>, service: Service)
    ensures !ExactlyOnce.RunConsumerSpec(w, calls, service).open
    ensures calls != [] && !w.shutdown && ProcessNext(w, calls[0], service).1 == Raised ==>
              ExactlyOnce.RunConsumerSpec(w, calls, service) == ProcessNext(w, calls[0], service).0.(open := false)
    ensures w.shutdown ==> ExactlyOnce.RunConsumerSpec(w, calls, service) == w.(open := false)
    decreases |calls|
  {
    if calls != [] && !w.shutdown {
      MainLoopEnds(ProcessNext(w, calls[0], service).0, calls[1..], service);
    }
  }
}
