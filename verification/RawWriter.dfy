/** Whole runs of consumers over a broker and an object store, and of the raw-writer service
    in particular: crashes, redelivery, failed commits, shutdown signals and restarts. */
module RawWriter {
  import opened Common
  import opened Events
  import opened Schema
  import opened Kafka

  /** One event in the life of the system. `Restart` starts a new process of the group, whatever
      became of the previous one; producers append whenever they like. */
  datatype Step =
    | Append(partition: Partition, record: Record)
    | Signal
    | Next(call: Call)
    | Restart
    | Close

  function Do(w: World, s: Step, service: Service): World {
    match s
    case Append(p, r) => if p in w.logs then w.(logs := w.logs[p := w.logs[p] + [r]]) else w
    case Signal => w.(shutdown := true)
    case Next(call) => ProcessNext(w, call, service).0
    case Restart => w.(open := true, shutdown := false, position := w.committed,
                       consumed := 0, processed := 0, deadLettered := 0)
    case Close => w.(open := false)
  }

  function Run(w: World, steps: seq<Step>, service: Service): World {
    if steps == [] then w else Do(Run(w, steps[..|steps| - 1], service), steps[|steps| - 1], service)
  }

  /** Empty store, nothing committed, no process yet. */
  predicate Initial(w: World) {
    && w.committed.Keys == w.position.Keys == w.logs.Keys
    && (forall p :: p in w.committed ==> w.committed[p] == 0)
    && w.objects == map[] && !w.open && w.succeeded == {} && w.acked == {}
  }

  // ---------------------------------------------------------------- commit after resolve

  /** Every offset below the committed one was processed or acknowledged by the dead-letter sink;
      an open consumer has no unresolved record and its counters balance. */
  ghost predicate Inv(w: World) {
    && w.committed.Keys == w.position.Keys == w.logs.Keys
    && (forall p :: p in w.committed ==> w.committed[p] <= |w.logs[p]|)
    && (forall p, off :: p in w.committed && 0 <= off < w.committed[p] ==> (p, off) in w.succeeded + w.acked)
    && (w.open ==> w.position == w.committed && w.consumed == w.processed + w.deadLettered)
  }

  ghost predicate NoRegress(w: World, w': World) {
    forall p :: p in w.committed ==> p in w'.committed && w.committed[p] <= w'.committed[p]
  }

  /** The consumer closed without a commit. */
  lemma ClosedKeepsInv(w: World, w': World)
    requires Inv(w.(open := false)) && !w'.open
    requires w'.logs == w.logs && w'.committed == w.committed && w'.position == w.position
    requires w.succeeded <= w'.succeeded && w.acked <= w'.acked
    ensures Inv(w') && NoRegress(w, w')
  {
  }

  /** The record at the committed offset was resolved, and then committed. */
  lemma CommitKeepsInv(w: World, w': World, p: Partition, off: nat)
    requires Pending(w, p, off)
    requires w'.logs == w.logs && w'.committed == w.committed[p := off + 1] && w'.position == w.position
    requires w.succeeded <= w'.succeeded && w.acked <= w'.acked && (p, off) in w'.succeeded + w'.acked
    requires w'.open ==> w'.consumed == w'.processed + w'.deadLettered
    ensures Inv(w') && NoRegress(w, w')
  {
  }

  lemma ResolveKeepsInv(w: World, p: Partition, off: nat, failed: bool, call: Call)
    requires Pending(w, p, off)
    requires failed || (p, off) in w.succeeded
    ensures Inv(Resolve(w, p, off, failed, call).0) && NoRegress(w, Resolve(w, p, off, failed, call).0)
  {
    var w' := Resolve(w, p, off, failed, call).0;
    if w.shutdown || (failed && !call.acknowledged) || call.commit == CommitRaised(false) {
      ClosedKeepsInv(w, w');
    } else {
      CommitKeepsInv(w, w', p, off);
    }
  }

  /** The state in which a record of an open consumer is waiting to be resolved. */
  ghost predicate Pending(w: World, p: Partition, off: nat) {
    && Inv(w.(open := false)) && w.open
    && p in w.logs && off == w.committed[p] < |w.logs[p]|
    && w.position == w.committed[p := off + 1] && w.consumed == w.processed + w.deadLettered + 1
  }

  lemma PollKeepsInv(w: World, poll: PollEvent, signal: bool)
    requires Inv(w)
    ensures var (w1, polled) := Poll(w, poll, signal);
            && w1.committed == w.committed && Inv(w1.(open := false))
            && (polled.Nothing? ==> Inv(w1))
            && (polled.Got? ==> Pending(w1, polled.partition, polled.offset)
                                && polled.record == w1.logs[polled.partition][polled.offset])
  {
  }

  lemma HandleKeepsInv(w: World, p: Partition, off: nat, e: Event, call: Call, service: Service)
    requires Pending(w, p, off)
    ensures Inv(Handle(w, p, off, e, call, service).0) && NoRegress(w, Handle(w, p, off, e, call, service).0)
  {
    var a := RunAttempts(w.objects, w.shutdown, service.prepare(e), call.attempts, service.retry, 1);
    AfterAttempts(w, a, p, off, call);
  }

  lemma AfterAttempts(w: World, a: Attempts, p: Partition, off: nat, call: Call)
    requires Pending(w, p, off)
    ensures Inv(Finish(w, a, p, off, call).0) && NoRegress(w, Finish(w, a, p, off, call).0)
  {
    var w1 := w.(objects := a.objects, shutdown := a.shutdown);
    match a.ending
    case Success => ResolveKeepsInv(w1.(succeeded := w.succeeded + {(p, off)}), p, off, false, call);
    case Failure => ResolveKeepsInv(w1, p, off, true, call);
    case _ => ClosedKeepsInv(w, w1.(open := false));
  }

  lemma CallKeepsInv(w: World, call: Call, service: Service)
    requires Inv(w)
    ensures Inv(ProcessNext(w, call, service).0) && NoRegress(w, ProcessNext(w, call, service).0)
  {
    var (w1, polled) := Poll(w, call.poll, call.pollSignal);
    PollKeepsInv(w, call.poll, call.pollSignal);
    match polled
    case Got(p, off, Malformed) => ResolveKeepsInv(w1, p, off, true, call);
    case Got(p, off, Valid(e)) => HandleKeepsInv(w1, p, off, e, call, service);
    case _ =>
  }

  /** In every reachable state, whatever the scripts do. */
  lemma {:induction false} RunKeepsInv(w: World, steps: seq<Step>, service: Service)
    requires Inv(w)
    ensures Inv(Run(w, steps, service)) && NoRegress(w, Run(w, steps, service))
  {
    if steps != [] {
      var w1 := Run(w, steps[..|steps| - 1], service);
      RunKeepsInv(w, steps[..|steps| - 1], service);
      match steps[|steps| - 1]
      case Next(call) => CallKeepsInv(w1, call, service);
      case _ =>
    }
  }

  // ---------------------------------------------------------------- bounded retries

  lemma {:induction false} AttemptsCalls(objects: Objects, shutdown: bool, job: Job, script: seq<Attempt>, policy: RetryPolicy, i: nat)
    requires 1 <= i <= policy.maxAttempts + 1
    ensures RunAttempts(objects, shutdown, job, script, policy, i).calls <= policy.maxAttempts + 1 - i
    decreases policy.maxAttempts + 1 - i
  {
    if i <= policy.maxAttempts {
      var a := Nth(script, i - 1);
      AttemptsCalls(Write(objects, job, a.put).0, a.signal, job, script, policy, i + 1);
    }
  }

  predicate IsTransient(a: Attempt) {
    a.put.PutRaised? && a.put.kind == Transient && !a.signal
  }

  /** Attempts `i` to `k` - 1 fail transiently, with no shutdown signal meanwhile. */
  ghost predicate TransientUntil(script: seq<Attempt>, i: nat, k: nat) {
    forall j: nat :: i <= j + 1 < k ==> IsTransient(Nth(script, j))
  }

  /** A handler that fails transiently until attempt `k` is called exactly up to there: it succeeds
      if `k` is within the policy, and otherwise has used up every attempt. */
  lemma {:induction false} RetriesUntilSuccess(objects: Objects, job: Job, script: seq<Attempt>, policy: RetryPolicy, i: nat, k: nat)
    requires 1 <= i <= k && i <= policy.maxAttempts + 1
    requires TransientUntil(script, i, k) && Nth(script, k - 1).put == Stored
    ensures var a := RunAttempts(objects, false, job, script, policy, i);
            if k <= policy.maxAttempts then
              a.ending == Success && a.calls == k + 1 - i && Lookup(a.objects, job.key) == Some(job.row)
              && a.slept == SleepBudget(policy.backoffSeconds, i, k)
            else
              a.ending == Failure && a.calls == policy.maxAttempts + 1 - i
              && a.slept == SleepBudget(policy.backoffSeconds, i, policy.maxAttempts)
    decreases policy.maxAttempts + 1 - i
  {
    if i < k && i <= policy.maxAttempts {
      var a := Nth(script, i - 1);
      RetriesUntilSuccess(Write(objects, job, a.put).0, job, script, policy, i + 1, k);
    }
  }

  /** backoff * i + backoff * (i + 1) + ... + backoff * (n - 1) */
  function SleepBudget(backoff: real, i: nat, n: nat): real
    decreases n - i
  {
    if i >= n then 0.0 else backoff * i as real + SleepBudget(backoff, i + 1, n)
  }

  lemma {:induction false} SleepBudgetClosed(backoff: real, i: nat, n: nat)
    requires i <= n
    ensures 2.0 * SleepBudget(backoff, i, n) == backoff * (n * (n - 1) - i * (i - 1)) as real
    decreases n - i
  {
    if i < n {
      SleepBudgetClosed(backoff, i + 1, n);
      calc {
        2.0 * SleepBudget(backoff, i, n);
        2.0 * (backoff * i as real) + backoff * (n * (n - 1) - (i + 1) * i) as real;
        backoff * (2 * i) as real + backoff * (n * (n - 1) - (i + 1) * i) as real;
        backoff * (2 * i + (n * (n - 1) - (i + 1) * i)) as real;
        { assert 2 * i + (n * (n - 1) - (i + 1) * i) == n * (n - 1) - i * (i - 1); }
        backoff * (n * (n - 1) - i * (i - 1)) as real;
      }
    }
  }

  lemma {:induction false} SleepBudgetNonNegative(backoff: real, i: nat, n: nat)
    requires backoff >= 0.0
    ensures SleepBudget(backoff, i, n) >= 0.0
    decreases n - i
  {
    if i < n {
      SleepBudgetNonNegative(backoff, i + 1, n);
      assert backoff * i as real >= 0.0;
    }
  }

  lemma {:induction false} AttemptsSlept(objects: Objects, shutdown: bool, job: Job, script: seq<Attempt>, policy: RetryPolicy, i: nat)
    requires 1 <= i <= policy.maxAttempts + 1 && policy.backoffSeconds >= 0.0
    ensures RunAttempts(objects, shutdown, job, script, policy, i).slept <= SleepBudget(policy.backoffSeconds, i, policy.maxAttempts)
    decreases policy.maxAttempts + 1 - i
  {
    SleepBudgetNonNegative(policy.backoffSeconds, i, policy.maxAttempts);
    if i <= policy.maxAttempts {
      var a := Nth(script, i - 1);
      AttemptsSlept(Write(objects, job, a.put).0, a.signal, job, script, policy, i + 1);
    }
  }

  /** One call runs the handler at most `max_attempts` times and sleeps at most
      `backoff * n * (n - 1) / 2` seconds, hence at most 225: under the default poll interval.
      `TotalBudget` gives the closed form. */
  lemma CallBounded(objects: Objects, shutdown: bool, job: Job, script: seq<Attempt>, policy: RetryPolicy)
    requires ValidPolicy(policy)
    ensures var a := RunAttempts(objects, shutdown, job, script, policy, 1);
            a.calls <= policy.maxAttempts
            && a.slept <= SleepBudget(policy.backoffSeconds, 1, policy.maxAttempts) <= 225.0
  {
    AttemptsCalls(objects, shutdown, job, script, policy, 1);
    AttemptsSlept(objects, shutdown, job, script, policy, 1);
    TotalBudget(policy.backoffSeconds, policy.maxAttempts);
  }

  lemma TotalBudget(backoff: real, n: nat)
    requires 0.0 <= backoff <= 5.0 && 1 <= n <= 10
    ensures 2.0 * SleepBudget(backoff, 1, n) == backoff * (n * (n - 1)) as real
    ensures SleepBudget(backoff, 1, n) <= 225.0
  {
    SleepBudgetClosed(backoff, 1, n);
    assert n * (n - 1) - 1 * (1 - 1) == n * (n - 1);
    BudgetCap(backoff, n);
  }

  lemma BudgetCap(backoff: real, n: nat)
    requires 0.0 <= backoff <= 5.0 && 1 <= n <= 10
    ensures backoff * (n * (n - 1)) as real <= 450.0
  {
    var m := n * (n - 1);
    assert 0 <= m <= 10 * 9;
    MulMono(backoff, 5.0, m as real);
  }

  lemma MulMono(a: real, b: real, x: real)
    requires a <= b && 0.0 <= x
    ensures a * x <= b * x
  {
  }
}
