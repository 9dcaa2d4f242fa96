/** Exactly-once effects from at-least-once delivery: along every run of the raw-writer service
    the Bronze store is the fold of each partition's log up to its committed offset, give or
    take the one record in flight. */
module ExactlyOnce {
  import opened Common
  import opened Events
  import opened Schema
  import opened Kafka
  import opened RawWriter

  // ---------------------------------------------------------------- the failure-free reference

  type Prep = Event -> Job

  /** Last write wins. */
  function Apply(objects: Objects, r: Record, prepare: Prep): Objects {
    if r.Valid? then objects[prepare(r.event).key := prepare(r.event).row] else objects
  }

  /** The store after handling the records of a log one after the other, each once. */
  function Fold(log: seq<Record>, prepare: Prep): Objects {
    if log == [] then map[] else Apply(Fold(log[..|log| - 1], prepare), log[|log| - 1], prepare)
  }

  function KeyAt(log: seq<Record>, i: nat, prepare: Prep): string
    requires i < |log| && log[i].Valid?
  {
    prepare(log[i].event).key
  }

  ghost predicate Owns(log: seq<Record>, key: string, prepare: Prep) {
    exists i :: 0 <= i < |log| && log[i].Valid? && KeyAt(log, i, prepare) == key
  }

  /** The store holds, under the keys of this log, what folding its first `n` records leaves there. */
  ghost predicate Agrees(objects: Objects, log: seq<Record>, n: nat, prepare: Prep)
    requires n <= |log|
  {
    forall i :: 0 <= i < |log| && log[i].Valid? ==>
      Lookup(objects, KeyAt(log, i, prepare)) == Lookup(Fold(log[..n], prepare), KeyAt(log, i, prepare))
  }

  /** No object key is shared between partitions. */
  ghost predicate Separate(logs: map<Partition, seq<Record>>, prepare: Prep) {
    forall p, q, key :: p in logs && q in logs && p != q && Owns(logs[p], key, prepare) ==> !Owns(logs[q], key, prepare)
  }

  /** The refinement relation for one partition. */
  ghost predicate Refines(w: World, p: Partition, prepare: Prep)
    requires p in w.logs && p in w.committed && w.committed[p] <= |w.logs[p]|
  {
    var log, c := w.logs[p], w.committed[p];
    Agrees(w.objects, log, c, prepare) || (c < |log| && log[c].Valid? && Agrees(w.objects, log, c + 1, prepare))
  }

  ghost predicate StoreInv(w: World, prepare: Prep) {
    && Inv(w)
    && (forall p :: p in w.logs ==> Refines(w, p, prepare))
    && ValidBelow(w.logs, w.committed)
    && Confined(w.objects, w.logs, prepare)
  }

  /** No malformed record has been committed past. */
  ghost predicate ValidBelow(logs: map<Partition, seq<Record>>, committed: map<Partition, nat>) {
    forall p, i :: p in logs && p in committed && 0 <= i < committed[p] && i < |logs[p]| ==> logs[p][i].Valid?
  }

  /** Every object comes from some log. */
  ghost predicate Confined(objects: Objects, logs: map<Partition, seq<Record>>, prepare: Prep) {
    forall key :: key in objects ==> exists p :: p in logs && Owns(logs[p], key, prepare)
  }

  // ---------------------------------------------------------------- one call of the service

  /** What raw-writer's collaborators can do: the handler raises neither of the two classified
      errors, and the dead-letter sink always refuses. */
  predicate RawCall(call: Call) {
    && !call.acknowledged
    && forall i :: 0 <= i < |call.attempts| ==>
         (call.attempts[i].put.PutRaised? ==> call.attempts[i].put.kind == Unexpected)
  }

  predicate RawStep(s: Step) {
    s.Next? ==> RawCall(s.call)
  }

  lemma RawAttempts(objects: Objects, shutdown: bool, job: Job, call: Call, policy: RetryPolicy)
    requires RawCall(call) && ValidPolicy(policy)
    ensures var a := RunAttempts(objects, shutdown, job, call.attempts, policy, 1);
            && a.ending != Failure
            && (a.objects == objects || a.objects == objects[job.key := job.row])
            && (a.ending == Success ==> a.objects == objects[job.key := job.row])
  {
    var a := Nth(call.attempts, 0);
  }

  /** The whole effect of a call on broker and store. */
  ghost predicate Effect(w: World, w': World, p: Partition, e: Event, prepare: Prep) {
    && p in w.logs && p in w.committed && w.committed[p] < |w.logs[p]| && w.logs[p][w.committed[p]] == Valid(e)
    && w'.logs == w.logs
    && (w'.objects == w.objects || w'.objects == w.objects[prepare(e).key := prepare(e).row])
    && (w'.committed == w.committed
        || (w'.committed == w.committed[p := w.committed[p] + 1]
            && w'.objects == w.objects[prepare(e).key := prepare(e).row]))
  }

  ghost predicate NoEffect(w: World, w': World) {
    w'.logs == w.logs && w'.objects == w.objects && w'.committed == w.committed
  }

  lemma RawHandleEffect(w: World, p: Partition, off: nat, e: Event, call: Call, service: Service)
    requires Pending(w, p, off) && RawCall(call) && ValidPolicy(service.retry) && w.logs[p][off] == Valid(e)
    ensures Effect(w, Handle(w, p, off, e, call, service).0, p, e, service.prepare)
  {
    RawAttempts(w.objects, w.shutdown, service.prepare(e), call, service.retry);
    var a := RunAttempts(w.objects, w.shutdown, service.prepare(e), call.attempts, service.retry, 1);
    FinishEffect(w, a, p, off, e, call, service.prepare);
  }

  lemma FinishEffect(w: World, a: Attempts, p: Partition, off: nat, e: Event, call: Call, prepare: Prep)
    requires Pending(w, p, off) && w.logs[p][off] == Valid(e) && a.ending != Failure
    requires a.objects == w.objects || a.objects == w.objects[prepare(e).key := prepare(e).row]
    requires a.ending == Success ==> a.objects == w.objects[prepare(e).key := prepare(e).row]
    ensures Effect(w, Finish(w, a, p, off, call).0, p, e, prepare)
  {
    if a.ending == Success {
      ResolveEffect(w.(objects := a.objects, shutdown := a.shutdown, succeeded := w.succeeded + {(p, off)}), p, off, false, call);
    }
  }

  lemma ResolveEffect(w: World, p: Partition, off: nat, failed: bool, call: Call)
    ensures var w' := Resolve(w, p, off, failed, call).0;
            && w'.logs == w.logs && w'.objects == w.objects
            && (w'.committed == w.committed || w'.committed == w.committed[p := off + 1])
            && (failed && !call.acknowledged ==> w'.committed == w.committed)
  {
    if w.shutdown || (failed && !call.acknowledged) {
      assert Resolve(w, p, off, failed, call).0.committed == w.committed;
    } else if call.commit == CommitRaised(false) {
      assert Resolve(w, p, off, failed, call).0.committed == w.committed;
    } else {
      assert Resolve(w, p, off, failed, call).0.committed == w.committed[p := off + 1];
    }
  }

  lemma PollEffect(w: World, poll: PollEvent, signal: bool)
    ensures NoEffect(w, Poll(w, poll, signal).0)
  {
  }

  ghost predicate SomeEffect(w: World, w': World, prepare: Prep) {
    NoEffect(w, w') || exists p, e :: Effect(w, w', p, e, prepare)
  }

  lemma RawCallEffect(w: World, call: Call, service: Service)
    requires Inv(w) && RawCall(call) && ValidPolicy(service.retry)
    ensures SomeEffect(w, ProcessNext(w, call, service).0, service.prepare)
  {
    PollEffect(w, call.poll, call.pollSignal);
    PollKeepsInv(w, call.poll, call.pollSignal);
    var (w1, polled) := Poll(w, call.poll, call.pollSignal);
    match polled
    case Got(p, off, Valid(e)) =>
      RawHandleEffect(w1, p, off, e, call, service);
      EffectFrom(w, w1, Handle(w1, p, off, e, call, service).0, p, e, service.prepare);
    case Got(p, off, Malformed) => ResolveEffect(w1, p, off, true, call);
    case _ =>
  }

  lemma EffectFrom(w: World, w1: World, w': World, p: Partition, e: Event, prepare: Prep)
    requires NoEffect(w, w1) && Effect(w1, w', p, e, prepare)
    ensures SomeEffect(w, w', prepare)
  {
    assert Effect(w, w', p, e, prepare);
  }

  // ---------------------------------------------------------------- effects keep the refinement

  lemma FoldSnoc(log: seq<Record>, n: nat, prepare: Prep)
    requires n < |log|
    ensures Fold(log[..n + 1], prepare) == Apply(Fold(log[..n], prepare), log[n], prepare)
  {
    assert log[..n + 1][..n] == log[..n];
  }

  /** Writing the record at the committed offset, for the first time or again. */
  lemma PutAdvances(objects: Objects, log: seq<Record>, c: nat, e: Event, prepare: Prep)
    requires c < |log| && log[c] == Valid(e)
    requires Agrees(objects, log, c, prepare) || Agrees(objects, log, c + 1, prepare)
    ensures Agrees(objects[prepare(e).key := prepare(e).row], log, c + 1, prepare)
  {
    FoldSnoc(log, c, prepare);
    var key, row := prepare(e).key, prepare(e).row;
    forall i | 0 <= i < |log| && log[i].Valid?
      ensures Lookup(objects[key := row], KeyAt(log, i, prepare)) == Lookup(Fold(log[..c + 1], prepare), KeyAt(log, i, prepare))
    {
      if KeyAt(log, i, prepare) != key {
        assert Lookup(Fold(log[..c + 1], prepare), KeyAt(log, i, prepare)) == Lookup(Fold(log[..c], prepare), KeyAt(log, i, prepare));
      }
    }
  }

  lemma PutElsewhere(objects: Objects, log: seq<Record>, n: nat, key: string, row: Row, prepare: Prep)
    requires n <= |log| && Agrees(objects, log, n, prepare) && !Owns(log, key, prepare)
    ensures Agrees(objects[key := row], log, n, prepare)
  {
    forall i | 0 <= i < |log| && log[i].Valid?
      ensures Lookup(objects[key := row], KeyAt(log, i, prepare)) == Lookup(Fold(log[..n], prepare), KeyAt(log, i, prepare))
    {
      assert KeyAt(log, i, prepare) != key;
    }
  }

  lemma EffectKeepsRefinement(w: World, w': World, p: Partition, e: Event, q: Partition, prepare: Prep)
    requires Separate(w.logs, prepare) && Effect(w, w', p, e, prepare)
    requires q in w.logs && q in w.committed && w.committed[q] <= |w.logs[q]| && Refines(w, q, prepare)
    requires q in w'.committed && w'.committed[q] <= |w'.logs[q]|
    ensures Refines(w', q, prepare)
  {
    var key, row := prepare(e).key, prepare(e).row;
    var log, c := w.logs[p], w.committed[p];
    assert KeyAt(log, c, prepare) == key;
    assert Owns(log, key, prepare);
    if q == p {
      PutAdvances(w.objects, log, c, e, prepare);
    } else {
      assert !Owns(w.logs[q], key, prepare);
      if Agrees(w.objects, w.logs[q], w.committed[q], prepare) {
        PutElsewhere(w.objects, w.logs[q], w.committed[q], key, row, prepare);
      } else {
        PutElsewhere(w.objects, w.logs[q], w.committed[q] + 1, key, row, prepare);
      }
    }
  }

  lemma EffectKeepsStoreInv(w: World, w': World, p: Partition, e: Event, prepare: Prep)
    requires StoreInv(w, prepare) && Separate(w.logs, prepare) && Effect(w, w', p, e, prepare) && Inv(w')
    ensures StoreInv(w', prepare)
  {
    forall q | q in w'.logs
      ensures Refines(w', q, prepare)
    {
      EffectKeepsRefinement(w, w', p, e, q, prepare);
    }
    EffectKeepsConfined(w, w', p, e, prepare);
  }

  lemma EffectKeepsConfined(w: World, w': World, p: Partition, e: Event, prepare: Prep)
    requires Confined(w.objects, w.logs, prepare) && ValidBelow(w.logs, w.committed) && Effect(w, w', p, e, prepare)
    ensures Confined(w'.objects, w'.logs, prepare) && ValidBelow(w'.logs, w'.committed)
  {
    assert KeyAt(w.logs[p], w.committed[p], prepare) == prepare(e).key;
    assert Owns(w.logs[p], prepare(e).key, prepare);
  }

  // ---------------------------------------------------------------- producers

  lemma OwnsAppend(log: seq<Record>, r: Record, key: string, prepare: Prep)
    ensures Owns(log + [r], key, prepare) <==> Owns(log, key, prepare) || (r.Valid? && prepare(r.event).key == key)
  {
    var log' := log + [r];
    if Owns(log, key, prepare) {
      var i :| 0 <= i < |log| && log[i].Valid? && KeyAt(log, i, prepare) == key;
      assert log'[i].Valid? && KeyAt(log', i, prepare) == key;
    }
    if r.Valid? && prepare(r.event).key == key {
      assert log'[|log|].Valid? && KeyAt(log', |log|, prepare) == key;
    }
  }

  lemma {:induction false} FoldKeysOwned(log: seq<Record>, key: string, prepare: Prep)
    requires key in Fold(log, prepare)
    ensures Owns(log, key, prepare)
  {
    var init, r := log[..|log| - 1], log[|log| - 1];
    assert log == init + [r];
    OwnsAppend(init, r, key, prepare);
    if key in Fold(init, prepare) {
      FoldKeysOwned(init, key, prepare);
    }
  }

  lemma AgreesAfterAppend(objects: Objects, log: seq<Record>, n: nat, r: Record, prepare: Prep)
    requires n <= |log| && Agrees(objects, log, n, prepare)
    requires r.Valid? && !Owns(log, prepare(r.event).key, prepare) ==> prepare(r.event).key !in objects
    ensures Agrees(objects, log + [r], n, prepare)
  {
    var log' := log + [r];
    assert log'[..n] == log[..n];
    forall i | 0 <= i < |log'| && log'[i].Valid?
      ensures Lookup(objects, KeyAt(log', i, prepare)) == Lookup(Fold(log'[..n], prepare), KeyAt(log', i, prepare))
    {
      var key := KeyAt(log', i, prepare);
      if Owns(log, key, prepare) {
        var j :| 0 <= j < |log| && log[j].Valid? && KeyAt(log, j, prepare) == key;
        assert Lookup(objects, KeyAt(log, j, prepare)) == Lookup(Fold(log[..n], prepare), KeyAt(log, j, prepare));
      } else {
        assert i == |log|;
        if key in Fold(log[..n], prepare) {
          FoldKeysOwned(log[..n], key, prepare);
          assert false;
        }
      }
    }
  }

  /** A key new to a log is not in the store, when keys are not shared. */
  lemma FreshKeyAbsent(objects: Objects, logs: map<Partition, seq<Record>>, p: Partition, r: Record, prepare: Prep)
    requires Confined(objects, logs, prepare) && p in logs && Separate(logs[p := logs[p] + [r]], prepare)
    requires r.Valid? && !Owns(logs[p], prepare(r.event).key, prepare)
    ensures prepare(r.event).key !in objects
  {
    var key := prepare(r.event).key;
    OwnsAppend(logs[p], r, key, prepare);
    var logs' := logs[p := logs[p] + [r]];
    assert Owns(logs'[p], key, prepare);
    forall q | q in logs
      ensures !Owns(logs[q], key, prepare)
    {
      if q != p {
        assert logs'[q] == logs[q] && !Owns(logs'[q], key, prepare);
      }
    }
  }

  lemma AppendKeepsConfined(objects: Objects, logs: map<Partition, seq<Record>>, p: Partition, r: Record, prepare: Prep)
    requires Confined(objects, logs, prepare) && p in logs
    ensures Confined(objects, logs[p := logs[p] + [r]], prepare)
  {
    var logs' := logs[p := logs[p] + [r]];
    forall key | key in objects
      ensures exists q :: q in logs' && Owns(logs'[q], key, prepare)
    {
      var q :| q in logs && Owns(logs[q], key, prepare);
      OwnsAppend(logs[p], r, key, prepare);
      assert q in logs' && Owns(logs'[q], key, prepare);
    }
  }

  lemma AppendKeepsRefinement(w: World, p: Partition, r: Record, w': World, q: Partition, prepare: Prep)
    requires StoreInv(w, prepare) && p in w.logs && q in w.logs
    requires w' == w.(logs := w.logs[p := w.logs[p] + [r]]) && Separate(w'.logs, prepare)
    ensures Refines(w', q, prepare)
  {
    assert Refines(w, q, prepare);
    if q == p {
      if r.Valid? && !Owns(w.logs[p], prepare(r.event).key, prepare) {
        FreshKeyAbsent(w.objects, w.logs, p, r, prepare);
      }
      var log, c := w.logs[p], w.committed[p];
      if Agrees(w.objects, log, c, prepare) {
        AgreesAfterAppend(w.objects, log, c, r, prepare);
      } else {
        AgreesAfterAppend(w.objects, log, c + 1, r, prepare);
      }
    }
  }

  lemma AppendKeepsStoreInv(w: World, p: Partition, r: Record, w': World, prepare: Prep)
    requires StoreInv(w, prepare) && p in w.logs
    requires w' == w.(logs := w.logs[p := w.logs[p] + [r]]) && Separate(w'.logs, prepare) && Inv(w')
    ensures StoreInv(w', prepare)
  {
    forall q | q in w'.logs
      ensures Refines(w', q, prepare)
    {
      AppendKeepsRefinement(w, p, r, w', q, prepare);
    }
    AppendKeepsConfined(w.objects, w.logs, p, r, prepare);
  }

  // ---------------------------------------------------------------- whole runs

  /** Along every run of the service, with keys not shared between partitions, each partition's
      part of the store is the fold of its log up to the committed offset or one record more;
      nothing malformed is ever committed past. */
  lemma {:induction false} EffectsExactlyOnce(w: World, steps: seq<Step>, service: Service)
    requires StoreInv(w, service.prepare) && ValidPolicy(service.retry)
    requires forall i :: 0 <= i < |steps| ==> RawStep(steps[i])
    requires Separate(Run(w, steps, service).logs, service.prepare)
    ensures StoreInv(Run(w, steps, service), service.prepare)
  {
    if steps != [] {
      var before, s := steps[..|steps| - 1], steps[|steps| - 1];
      var w1 := Run(w, before, service);
      RunKeepsInv(w, before, service);
      RunKeepsInv(w, steps, service);
      SeparateBefore(w1, s, service);
      EffectsExactlyOnce(w, before, service);
      StepKeepsStoreInv(w1, s, service);
    }
  }

  lemma SeparateBefore(w: World, s: Step, service: Service)
    requires Inv(w) && Separate(Do(w, s, service).logs, service.prepare)
    ensures Separate(w.logs, service.prepare)
  {
    match s
    case Append(p, r) =>
      if p in w.logs {
        var logs' := Do(w, s, service).logs;
        forall a, b, key | a in w.logs && b in w.logs && a != b && Owns(w.logs[a], key, service.prepare)
          ensures !Owns(w.logs[b], key, service.prepare)
        {
          OwnsAppend(w.logs[p], r, key, service.prepare);
          assert Owns(logs'[a], key, service.prepare);
          assert !Owns(logs'[b], key, service.prepare);
        }
      }
    case Next(call) => CallKeepsLogs(w, call, service);
    case _ =>
  }

  lemma FinishKeepsLogs(w: World, a: Attempts, p: Partition, off: nat, call: Call)
    ensures Finish(w, a, p, off, call).0.logs == w.logs
  {
  }

  lemma CallKeepsLogs(w: World, call: Call, service: Service)
    ensures ProcessNext(w, call, service).0.logs == w.logs
  {
    PollEffect(w, call.poll, call.pollSignal);
    var (w1, polled) := Poll(w, call.poll, call.pollSignal);
    match polled
    case Got(p, off, Valid(e)) =>
      FinishKeepsLogs(w1, RunAttempts(w1.objects, w1.shutdown, service.prepare(e), call.attempts, service.retry, 1), p, off, call);
    case Got(p, off, Malformed) => ResolveEffect(w1, p, off, true, call);
    case _ =>
  }

  lemma StepKeepsStoreInv(w: World, s: Step, service: Service)
    requires StoreInv(w, service.prepare) && ValidPolicy(service.retry) && RawStep(s)
    requires Separate(w.logs, service.prepare) && Separate(Do(w, s, service).logs, service.prepare)
    requires Inv(Do(w, s, service))
    ensures StoreInv(Do(w, s, service), service.prepare)
  {
    var w' := Do(w, s, service);
    match s
    case Append(p, r) =>
      if p in w.logs {
        AppendKeepsStoreInv(w, p, r, w', service.prepare);
      }
    case Next(call) =>
      RawCallEffect(w, call, service);
      if NoEffect(w, w') {
        SameStoreInv(w, w', service.prepare);
      } else {
        var p, e :| Effect(w, w', p, e, service.prepare);
        EffectKeepsStoreInv(w, w', p, e, service.prepare);
      }
    case _ => SameStoreInv(w, w', service.prepare);
  }

  lemma SameStoreInv(w: World, w': World, prepare: Prep)
    requires StoreInv(w, prepare) && NoEffect(w, w') && Inv(w')
    ensures StoreInv(w', prepare)
  {
    forall q | q in w'.logs
      ensures Refines(w', q, prepare)
    {
      assert Refines(w, q, prepare);
    }
  }

  // ---------------------------------------------------------------- convergence

  /** The initial state satisfies the invariant. */
  lemma InitialStoreInv(w: World, prepare: Prep)
    requires Initial(w)
    ensures StoreInv(w, prepare)
  {
    forall p | p in w.logs
      ensures Refines(w, p, prepare)
    {
      assert Fold(w.logs[p][..0], prepare) == map[];
    }
  }

  /** A call in which nothing goes wrong. */
  function CleanCall(p: Partition): Call {
    Call(Fetch(p, true), false, [Attempt(Stored, false)], false, Committed, false)
  }

  /** `n` such calls on one partition. */
  function Drain(p: Partition, n: nat): seq<Step> {
    seq(n, _ => Next(CleanCall(p)))
  }

  lemma CleanCallAdvances(w: World, p: Partition, service: Service)
    requires Inv(w) && w.open && !w.shutdown && ValidPolicy(service.retry)
    requires p in w.logs && w.committed[p] < |w.logs[p]| && w.logs[p][w.committed[p]].Valid?
    ensures var w' := ProcessNext(w, CleanCall(p), service).0;
            && w'.open && !w'.shutdown && w'.logs == w.logs
            && w'.committed == w.committed[p := w.committed[p] + 1]
  {
    assert Nth([Attempt(Stored, false)], 0) == Attempt(Stored, false);
  }

  /** From any reachable state, however many crashes led there, a restart and one clean call per
      remaining record leave exactly the failure-free fold of the partition's log. */
  lemma RecoveryConverges(w: World, p: Partition, service: Service)
    requires StoreInv(w, service.prepare) && ValidPolicy(service.retry) && Separate(w.logs, service.prepare)
    requires p in w.logs && forall i :: 0 <= i < |w.logs[p]| ==> w.logs[p][i].Valid?
    ensures var w' := Run(w, [Restart] + Drain(p, |w.logs[p]| - w.committed[p]), service);
            && w'.logs == w.logs && p in w'.committed && w'.committed[p] == |w.logs[p]|
            && Agrees(w'.objects, w.logs[p], |w.logs[p]|, service.prepare)
  {
    var n := |w.logs[p]| - w.committed[p];
    DrainAdvances(w, p, n, service);
    var steps := [Restart] + Drain(p, n);
    var w' := Run(w, steps, service);
    assert forall i :: 0 <= i < |steps| ==> RawStep(steps[i]);
    EffectsExactlyOnce(w, steps, service);
    assert Refines(w', p, service.prepare);
  }

  /** An open consumer that has moved partition `p` on by `n` records and nothing else. */
  ghost predicate Drained(w: World, w': World, p: Partition, n: nat) {
    && Inv(w') && w'.open && !w'.shutdown && w'.logs == w.logs
    && p in w.committed && w'.committed == w.committed[p := w.committed[p] + n]
  }

  lemma DrainStep(w: World, w1: World, p: Partition, n: nat, service: Service)
    requires Drained(w, w1, p, n) && ValidPolicy(service.retry)
    requires p in w.logs && w.committed[p] + n < |w.logs[p]| && w.logs[p][w.committed[p] + n].Valid?
    ensures Drained(w, ProcessNext(w1, CleanCall(p), service).0, p, n + 1)
  {
    CallKeepsInv(w1, CleanCall(p), service);
    CleanCallAdvances(w1, p, service);
  }

  lemma {:induction false} DrainAdvances(w: World, p: Partition, n: nat, service: Service)
    requires Inv(w) && ValidPolicy(service.retry)
    requires p in w.logs && w.committed[p] + n <= |w.logs[p]| && forall i :: 0 <= i < |w.logs[p]| ==> w.logs[p][i].Valid?
    ensures Drained(w, Run(w, [Restart] + Drain(p, n), service), p, n)
  {
    if n == 0 {
      assert [Restart] + Drain(p, n) == [] + [Restart];
      RunSnoc(w, [], Restart, service);
    } else {
      DrainAdvances(w, p, n - 1, service);
      assert [Restart] + Drain(p, n) == [Restart] + Drain(p, n - 1) + [Next(CleanCall(p))];
      RunSnoc(w, [Restart] + Drain(p, n - 1), Next(CleanCall(p)), service);
      DrainStep(w, Run(w, [Restart] + Drain(p, n - 1), service), p, n - 1, service);
    }
  }

  lemma RunSnoc(w: World, steps: seq<Step>, s: Step, service: Service)
    ensures Run(w, steps + [s], service) == Do(Run(w, steps, service), s, service)
  {
    assert (steps + [s])[..|steps|] == steps;
  }

  /** Until a malformed record is dealt with outside the service, no run commits past it. */
  lemma MalformedBlocksPartition(w: World, steps: seq<Step>, service: Service, p: Partition, i: nat)
    requires StoreInv(w, service.prepare) && ValidPolicy(service.retry)
    requires forall k :: 0 <= k < |steps| ==> RawStep(steps[k])
    requires Separate(Run(w, steps, service).logs, service.prepare)
    requires p in w.logs && i < |w.logs[p]| && w.logs[p][i] == Malformed
    ensures var w' := Run(w, steps, service);
            p in w'.committed && w'.committed[p] <= i
  {
    EffectsExactlyOnce(w, steps, service);
    RunExtendsLogs(w, steps, service, p);
  }

  lemma {:induction false} RunExtendsLogs(w: World, steps: seq<Step>, service: Service, p: Partition)
    requires p in w.logs
    ensures p in Run(w, steps, service).logs && w.logs[p] <= Run(w, steps, service).logs[p]
  {
    if steps != [] {
      RunExtendsLogs(w, steps[..|steps| - 1], service, p);
      var w1, s := Run(w, steps[..|steps| - 1], service), steps[|steps| - 1];
      if s.Next? {
        CallKeepsLogs(w1, s.call, service);
      }
    }
  }

  /** The service's main loop, over the calls that turn out to happen. */
  function RunConsumerSpec(w: World, calls: seq<Call>, service: Service): World
    decreases |calls|
  {
    if calls == [] || w.shutdown then w.(open := false)
    else
      var (w1, outcome) := ProcessNext(w, calls[0], service);
      if outcome == Raised then w1.(open := false) else RunConsumerSpec(w1, calls[1..], service)
  }

  /** A run of the main loop is a run of the system, so everything above applies to it. */
  lemma {:induction false} MainLoopIsRun(w: World, calls: seq<Call>, service: Service) returns (steps: seq<Step>)
    requires forall i :: 0 <= i < |calls| ==> RawCall(calls[i])
    ensures forall i :: 0 <= i < |steps| ==> RawStep(steps[i])
    ensures RunConsumerSpec(w, calls, service) == Run(w, steps, service)
    decreases |calls|
  {
    if calls == [] || w.shutdown {
      steps := [Close];
      assert steps[..0] == [] && Run(w, [], service) == w;
    } else {
      var (w1, outcome) := ProcessNext(w, calls[0], service);
      if outcome == Raised {
        steps := [Close];
        assert steps[..0] == [] && Run(w1, [], service) == w1;
      } else {
        steps := MainLoopIsRun(w1, calls[1..], service);
      }
      RunCons(w, Next(calls[0]), steps, service);
      steps := [Next(calls[0])] + steps;
    }
  }

  lemma {:induction false} RunCons(w: World, s: Step, steps: seq<Step>, service: Service)
    ensures Run(w, [s] + steps, service) == Run(Do(w, s, service), steps, service)
  {
    var all := [s] + steps;
    if steps == [] {
      assert all[..0] == [] && all[0] == s && Run(w, [], service) == w;
    } else {
      assert all[..|all| - 1] == [s] + steps[..|steps| - 1];
      RunCons(w, s, steps[..|steps| - 1], service);
    }
  }

  method RunConsumer(consumer: KafkaConsumer, writer: BronzeWriter, calls: seq<Call>, retry: RetryPolicy)
    modifies consumer, consumer.broker, writer.storage
    ensures consumer.View(writer.storage) == RunConsumerSpec(old(consumer.View(writer.storage)), calls, BronzeService(retry))
  {
    var i := 0;
    while i < |calls| && !consumer.shutdownRequested
      invariant 0 <= i <= |calls|
      invariant RunConsumerSpec(consumer.View(writer.storage), calls[i..], BronzeService(retry))
             == RunConsumerSpec(old(consumer.View(writer.storage)), calls, BronzeService(retry))
    {
      var outcome := consumer.ProcessNextRecord(writer, calls[i], retry);
      assert calls[i..][0] == calls[i] && calls[i..][1..] == calls[i + 1..];
      i := i + 1;
      if outcome == Raised {
        break;
      }
    }
    consumer.closed := true;
  }
}
