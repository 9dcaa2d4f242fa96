/** The raw writer and the compactor on one lake: what the consumer has committed stays in its
    partition directory, however the two interleave and wherever either fails. */
module LakeDurability {
  import opened Common
  import opened Text
  import opened Events
  import C = Compaction
  import CompactionSafety
  import EndToEnd
  import ExactlyOnce
  import K = Kafka
  import Keys = PartitionKey
  import R = RawWriter

  // ---------------------------------------------------------------- the joint system

  /** A step of the consuming side or of the compactor. */
  datatype Step = Consume(step: R.Step) | Compact(action: C.Step)

  datatype Joint = Joint(world: K.World, machine: C.Machine)

  /** The event whose put took effect in a call, if any: the writer's first attempt is its last. */
  function PutIn(w: K.World, call: K.Call): Option<Event> {
    var (w1, polled) := K.Poll(w, call.poll, call.pollSignal);
    match polled
    case Got(_, _, Valid(e)) =>
      var put := K.Nth(call.attempts, 0).put;
      if !w1.shutdown && (put.Stored? || put.stored) then Some(e) else None
    case _ => None
  }

  function PutBy(w: K.World, s: R.Step): Option<Event> {
    if s.Next? then PutIn(w, s.call) else None
  }

  /** What the compactor sees of a step: its own actions, and the writer's puts. */
  function Seen(w: K.World, s: Step, rowOf: Event -> C.Row): seq<C.Step> {
    match s
    case Compact(c) => [c]
    case Consume(r) => if PutBy(w, r).Some? then [C.Write(rowOf(PutBy(w, r).value))] else []
  }

  function Do(j: Joint, s: Step, service: K.Service, job: C.Job, keyOf: C.KeyOf, rowOf: Event -> C.Row): Joint {
    Joint(if s.Consume? then R.Do(j.world, s.step, service) else j.world,
          C.Run(j.machine, Seen(j.world, s, rowOf), job, keyOf))
  }

  function Run(j: Joint, steps: seq<Step>, service: K.Service, job: C.Job, keyOf: C.KeyOf, rowOf: Event -> C.Row): Joint {
    if steps == [] then j
    else Do(Run(j, steps[..|steps| - 1], service, job, keyOf, rowOf), steps[|steps| - 1], service, job, keyOf, rowOf)
  }

  /** The raw writer's collaborators behave as they may, listings are complete, compacted files get
      new names. */
  ghost predicate Legal(j: Joint, s: Step, job: C.Job, keyOf: C.KeyOf) {
    match s
    case Consume(r) => ExactlyOnce.RawStep(r)
    case Compact(c) => !c.Write? && C.Legal(j.machine, c, job, keyOf)
  }

  ghost predicate LegalRun(j: Joint, steps: seq<Step>, service: K.Service, job: C.Job, keyOf: C.KeyOf, rowOf: Event -> C.Row) {
    steps == [] ||
    (var init := steps[..|steps| - 1];
     LegalRun(j, init, service, job, keyOf, rowOf)
     && Legal(Run(j, init, service, job, keyOf, rowOf), steps[|steps| - 1], job, keyOf))
  }

  // ---------------------------------------------------------------- one call

  /** The object store of the consuming side moves by the put that took effect; a commit follows such a
      put, for the very record. */
  ghost predicate PutThenCommit(w: K.World, w': K.World, put: Option<Event>, prepare: ExactlyOnce.Prep) {
    && w'.logs == w.logs
    && w'.objects == (if put.Some? then w.objects[prepare(put.value).key := prepare(put.value).row] else w.objects)
    && (put.Some? ==> exists p :: EndToEnd.Logged(w.logs, p, put.value))
    && (w'.committed == w.committed || exists p :: Committed(w, w', p, put))
  }

  ghost predicate Committed(w: K.World, w': K.World, p: K.Partition, put: Option<Event>) {
    && p in w.logs && p in w.committed && w.committed[p] < |w.logs[p]|
    && put.Some? && w.logs[p][w.committed[p]] == K.Valid(put.value)
    && w'.committed == w.committed[p := w.committed[p] + 1]
  }

  lemma CallPuts(w: K.World, call: K.Call, service: K.Service)
    requires R.Inv(w) && ExactlyOnce.RawCall(call) && K.ValidPolicy(service.retry)
    ensures PutThenCommit(w, K.ProcessNext(w, call, service).0, PutIn(w, call), service.prepare)
  {
    ExactlyOnce.PollEffect(w, call.poll, call.pollSignal);
    R.PollKeepsInv(w, call.poll, call.pollSignal);
    var (w1, polled) := K.Poll(w, call.poll, call.pollSignal);
    match polled
    case Got(p, off, Valid(e)) => ValidPuts(w, w1, p, off, e, call, service);
    case Got(p, off, Malformed) => ExactlyOnce.ResolveEffect(w1, p, off, true, call);
    case _ =>
  }

  lemma ValidPuts(w: K.World, w1: K.World, p: K.Partition, off: nat, e: Event, call: K.Call, service: K.Service)
    requires ExactlyOnce.RawCall(call) && K.ValidPolicy(service.retry) && ExactlyOnce.NoEffect(w, w1)
    requires R.Pending(w1, p, off) && w1.logs[p][off] == K.Valid(e)
    requires K.Poll(w, call.poll, call.pollSignal) == (w1, K.Got(p, off, K.Valid(e)))
    ensures PutThenCommit(w, K.Handle(w1, p, off, e, call, service).0, PutIn(w, call), service.prepare)
  {
    var a := K.RunAttempts(w1.objects, w1.shutdown, service.prepare(e), call.attempts, service.retry, 1);
    OneAttempt(w1.objects, w1.shutdown, service.prepare(e), call, service.retry);
    AfterPut(w, w1, a, p, off, e, PutIn(w, call), call, service.prepare);
  }

  lemma AfterPut(w: K.World, w1: K.World, a: K.Attempts, p: K.Partition, off: nat, e: Event, put: Option<Event>,
                 call: K.Call, prepare: ExactlyOnce.Prep)
    requires ExactlyOnce.NoEffect(w, w1) && R.Pending(w1, p, off) && w1.logs[p][off] == K.Valid(e)
    requires put == None || put == Some(e)
    requires a.ending != K.Failure && (a.ending == K.Success ==> put.Some?)
    requires a.objects == if put.Some? then w.objects[prepare(e).key := prepare(e).row] else w.objects
    ensures PutThenCommit(w, K.Finish(w1, a, p, off, call).0, put, prepare)
  {
    var w' := K.Finish(w1, a, p, off, call).0;
    assert EndToEnd.Logged(w.logs, p, e);
    if a.ending == K.Success {
      var w2 := w1.(objects := a.objects, shutdown := a.shutdown, succeeded := w1.succeeded + {(p, off)});
      ExactlyOnce.ResolveEffect(w2, p, off, false, call);
      assert w'.committed == w.committed || Committed(w, w', p, put);
    }
  }

  /** The writer puts at most once in a call, and succeeds only if it did. */
  lemma OneAttempt(objects: K.Objects, shutdown: bool, job: K.Job, call: K.Call, policy: K.RetryPolicy)
    requires ExactlyOnce.RawCall(call) && K.ValidPolicy(policy)
    ensures var a, put := K.RunAttempts(objects, shutdown, job, call.attempts, policy, 1), K.Nth(call.attempts, 0).put;
            var took := !shutdown && (put.Stored? || put.stored);
            a.ending != K.Failure && (a.ending == K.Success ==> took)
            && a.objects == if took then objects[job.key := job.row] else objects
  {
    var a := K.Nth(call.attempts, 0);
  }

  // ---------------------------------------------------------------- whole runs

  /** Every put the compactor saw is of a logged event, and every record below the committed offset is
      well-formed and was put. */
  ghost predicate TraceInv(w: K.World, trace: seq<C.Step>, rowOf: Event -> C.Row) {
    && R.Inv(w)
    && (forall r :: C.Write(r) in trace ==> exists p, e :: EndToEnd.Logged(w.logs, p, e) && r == rowOf(e))
    && (forall p, i :: Below(w, p, i) ==> WasPut(w.logs[p][i], trace, rowOf))
  }

  predicate WasPut(r: K.Record, trace: seq<C.Step>, rowOf: Event -> C.Row) {
    r.Valid? && C.Write(rowOf(r.event)) in trace
  }

  ghost predicate Below(w: K.World, p: K.Partition, i: int) {
    p in w.logs && p in w.committed && 0 <= i < w.committed[p] && i < |w.logs[p]|
  }

  lemma AppendKeepsTrace(w: K.World, p: K.Partition, r: K.Record, trace: seq<C.Step>, rowOf: Event -> C.Row)
    requires TraceInv(w, trace, rowOf) && p in w.logs
    ensures TraceInv(w.(logs := w.logs[p := w.logs[p] + [r]]), trace, rowOf)
  {
    var w' := w.(logs := w.logs[p := w.logs[p] + [r]]);
    forall x | C.Write(x) in trace ensures exists q, e :: EndToEnd.Logged(w'.logs, q, e) && x == rowOf(e) {
      var q, e :| EndToEnd.Logged(w.logs, q, e) && x == rowOf(e);
      assert EndToEnd.Logged(w'.logs, q, e);
    }
    forall q, i | Below(w', q, i) ensures WasPut(w'.logs[q][i], trace, rowOf) {
      assert Below(w, q, i);
    }
  }

  lemma CallKeepsTrace(w: K.World, w': K.World, put: Option<Event>, trace: seq<C.Step>, prepare: ExactlyOnce.Prep,
                       rowOf: Event -> C.Row)
    requires TraceInv(w, trace, rowOf) && R.Inv(w') && PutThenCommit(w, w', put, prepare)
    ensures TraceInv(w', trace + (if put.Some? then [C.Write(rowOf(put.value))] else []), rowOf)
  {
    var all := trace + (if put.Some? then [C.Write(rowOf(put.value))] else []);
    forall q, i | Below(w', q, i) ensures WasPut(w'.logs[q][i], all, rowOf) {
      if Below(w, q, i) {
        assert WasPut(w.logs[q][i], trace, rowOf);
      } else {
        var p :| Committed(w, w', p, put);
        assert q == p && i == w.committed[p];
        assert all[|trace|] == C.Write(rowOf(put.value));
      }
    }
  }

  lemma ActionKeepsTrace(w: K.World, c: C.Step, trace: seq<C.Step>, rowOf: Event -> C.Row)
    requires TraceInv(w, trace, rowOf) && !c.Write?
    ensures TraceInv(w, trace + [c], rowOf)
  {
    forall p, i | Below(w, p, i) ensures WasPut(w.logs[p][i], trace + [c], rowOf) {
      assert WasPut(w.logs[p][i], trace, rowOf);
    }
  }

  lemma StepKeepsTrace(w: K.World, s: R.Step, trace: seq<C.Step>, service: K.Service, rowOf: Event -> C.Row)
    requires TraceInv(w, trace, rowOf) && ExactlyOnce.RawStep(s) && K.ValidPolicy(service.retry)
    ensures TraceInv(R.Do(w, s, service), trace + Seen(w, Consume(s), rowOf), rowOf)
  {
    assert trace + [] == trace;
    match s
    case Append(p, r) =>
      if p in w.logs { AppendKeepsTrace(w, p, r, trace, rowOf); }
    case Next(call) =>
      CallPuts(w, call, service);
      R.CallKeepsInv(w, call, service);
      CallKeepsTrace(w, R.Do(w, s, service), PutIn(w, call), trace, service.prepare, rowOf);
    case _ =>
      var w' := R.Do(w, s, service);
      assert forall q, i :: Below(w', q, i) ==> Below(w, q, i);
  }

  /** Everything the compactor saw of a run. */
  function Trace(j: Joint, steps: seq<Step>, service: K.Service, job: C.Job, keyOf: C.KeyOf, rowOf: Event -> C.Row): seq<C.Step> {
    if steps == [] then []
    else
      var init := steps[..|steps| - 1];
      Trace(j, init, service, job, keyOf, rowOf)
      + Seen(Run(j, init, service, job, keyOf, rowOf).world, steps[|steps| - 1], rowOf)
  }

  lemma {:induction false} RunConcat(m: C.Machine, a: seq<C.Step>, b: seq<C.Step>, job: C.Job, keyOf: C.KeyOf)
    ensures C.Run(m, a + b, job, keyOf) == C.Run(C.Run(m, a, job, keyOf), b, job, keyOf)
  {
    if b == [] {
      assert a + b == a;
    } else {
      assert (a + b)[..|a + b| - 1] == a + b[..|b| - 1];
      RunConcat(m, a, b[..|b| - 1], job, keyOf);
    }
  }

  lemma SoundMore(m: C.Machine, trace: seq<C.Step>, more: seq<C.Step>, job: C.Job, keyOf: C.KeyOf)
    requires EndToEnd.SoundRun(m, trace, job, keyOf) && |more| <= 1
    requires forall c :: c in more ==> c.Write? || C.Legal(C.Run(m, trace, job, keyOf), c, job, keyOf)
    ensures EndToEnd.SoundRun(m, trace + more, job, keyOf)
  {
    if more == [] {
      assert trace + more == trace;
    } else {
      assert more[0] in more && (trace + more)[..|trace|] == trace;
    }
  }

  /** A joint run is a run of the compactor among writers, and keeps the invariant. */
  lemma {:induction false} JointRun(j: Joint, steps: seq<Step>, service: K.Service, job: C.Job, keyOf: C.KeyOf, rowOf: Event -> C.Row)
    requires TraceInv(j.world, [], rowOf) && K.ValidPolicy(service.retry)
    requires LegalRun(j, steps, service, job, keyOf, rowOf)
    ensures var j', trace := Run(j, steps, service, job, keyOf, rowOf), Trace(j, steps, service, job, keyOf, rowOf);
            j'.machine == C.Run(j.machine, trace, job, keyOf)
            && EndToEnd.SoundRun(j.machine, trace, job, keyOf) && TraceInv(j'.world, trace, rowOf)
  {
    if steps != [] {
      var init, s := steps[..|steps| - 1], steps[|steps| - 1];
      JointRun(j, init, service, job, keyOf, rowOf);
      JointStep(j.machine, Run(j, init, service, job, keyOf, rowOf), Trace(j, init, service, job, keyOf, rowOf), s, service, job,
                keyOf, rowOf);
    }
  }

  lemma JointStep(m: C.Machine, j: Joint, trace: seq<C.Step>, s: Step, service: K.Service, job: C.Job, keyOf: C.KeyOf,
                  rowOf: Event -> C.Row)
    requires j.machine == C.Run(m, trace, job, keyOf) && EndToEnd.SoundRun(m, trace, job, keyOf)
    requires TraceInv(j.world, trace, rowOf) && K.ValidPolicy(service.retry) && Legal(j, s, job, keyOf)
    ensures var j', all := Do(j, s, service, job, keyOf, rowOf), trace + Seen(j.world, s, rowOf);
            j'.machine == C.Run(m, all, job, keyOf) && EndToEnd.SoundRun(m, all, job, keyOf) && TraceInv(j'.world, all, rowOf)
  {
    RunConcat(m, trace, Seen(j.world, s, rowOf), job, keyOf);
    SoundMore(m, trace, Seen(j.world, s, rowOf), job, keyOf);
    if s.Consume? {
      StepKeepsTrace(j.world, s.step, trace, service, rowOf);
    } else {
      ActionKeepsTrace(j.world, s.action, trace, rowOf);
    }
  }

  /** What the adapters put in the logs: their own ids, no two merged by sanitising, none that looks
      like a compacted file, and rows that can be read back. */
  ghost predicate AdapterLogs(logs: map<K.Partition, seq<K.Record>>, rowOf: Event -> C.Row, eventOf: C.Row -> Event) {
    && (forall p, e :: EndToEnd.Logged(logs, p, e) ==>
          Keys.AdapterEvent(e) && EndToEnd.WrittenRow(rowOf(e), eventOf) && eventOf(rowOf(e)) == e)
    && (forall p, q, a, b :: EndToEnd.Logged(logs, p, a) && EndToEnd.Logged(logs, q, b) ==> EndToEnd.Unmerged(a, b))
  }

  lemma PutsToldApart(w: K.World, trace: seq<C.Step>, rowOf: Event -> C.Row, eventOf: C.Row -> Event)
    requires TraceInv(w, trace, rowOf) && AdapterLogs(w.logs, rowOf, eventOf)
    ensures forall r :: C.Write(r) in trace ==> EndToEnd.WrittenRow(r, eventOf)
    ensures EndToEnd.ToldApart(eventOf, CompactionSafety.Occurring(C.Machine(map[], C.Idle), trace))
  {
    var rows := CompactionSafety.Occurring(C.Machine(map[], C.Idle), trace);
    forall r | r in rows ensures Keys.AdapterEvent(eventOf(r)) && EndToEnd.WrittenRow(r, eventOf) {
      var p, e :| EndToEnd.Logged(w.logs, p, e) && r == rowOf(e);
    }
    forall a, b | a in rows && b in rows ensures EndToEnd.Unmerged(eventOf(a), eventOf(b)) {
      var p, e :| EndToEnd.Logged(w.logs, p, e) && a == rowOf(e);
      var q, f :| EndToEnd.Logged(w.logs, q, f) && b == rowOf(f);
    }
    forall r | C.Write(r) in trace ensures r in rows {
    }
  }

  /** A put puts the event where its key says. */
  lemma PutIsThere(m: C.Machine, e: Event, prefix: string, job: C.Job, keyOf: C.KeyOf, rowOf: Event -> C.Row,
                   eventOf: C.Row -> Event)
    requires keyOf == EndToEnd.LakeKey(Keys.Bronze, eventOf) && eventOf(rowOf(e)) == e && rowOf(e).eventId == e.eventId
    requires prefix <= Keys.BuildPartitionKey(e, Keys.Bronze)
    ensures CompactionSafety.HasEvent(C.Do(m, C.Write(rowOf(e)), job, keyOf).objects, prefix, e.eventId)
  {
    var key := keyOf(rowOf(e));
    assert key == Keys.BuildPartitionKey(e, Keys.Bronze);
    assert m.objects[key := [rowOf(e)]][key][0].eventId == e.eventId;
  }

  /** The record is well-formed, and if its key lies in the partition directory, so does its event. */
  ghost predicate InLake(r: K.Record, objects: C.Objects, prefix: string) {
    r.Valid? && (prefix <= Keys.BuildPartitionKey(r.event, Keys.Bronze) ==>
                   CompactionSafety.HasEvent(objects, prefix, r.event.eventId))
  }

  lemma PutStaysInLake(w: K.World, trace: seq<C.Step>, job: C.Job, rowOf: Event -> C.Row, eventOf: C.Row -> Event,
                       p: K.Partition, i: nat)
    requires TraceInv(w, trace, rowOf) && AdapterLogs(w.logs, rowOf, eventOf) && C.IsPrefix(job.prefix)
    requires EndToEnd.SoundRun(C.Machine(map[], C.Idle), trace, job, EndToEnd.LakeKey(Keys.Bronze, eventOf))
    requires Below(w, p, i)
    ensures InLake(w.logs[p][i],
                   C.Run(C.Machine(map[], C.Idle), trace, job, EndToEnd.LakeKey(Keys.Bronze, eventOf)).objects, job.prefix)
  {
    assert WasPut(w.logs[p][i], trace, rowOf);
    var e, keyOf := w.logs[p][i].event, EndToEnd.LakeKey(Keys.Bronze, eventOf);
    if job.prefix <= Keys.BuildPartitionKey(e, Keys.Bronze) {
      PutsToldApart(w, trace, rowOf, eventOf);
      assert EndToEnd.Logged(w.logs, p, e);
      var k :| 0 <= k < |trace| && trace[k] == C.Write(rowOf(e));
      assert trace[..k + 1][..k] == trace[..k];
      PutIsThere(C.Run(C.Machine(map[], C.Idle), trace[..k], job, keyOf), e, job.prefix, job, keyOf, rowOf, eventOf);
      EndToEnd.NoLakeEventLost(trace, k + 1, e.eventId, job, Keys.Bronze, eventOf);
    }
  }

  /** Every record below a committed offset is well-formed, and its event is in its partition directory,
      at every moment of every joint run: through crashes, redelivery and restarts of the consumer, and
      through compactions that fail wherever they may. */
  lemma CommittedStaysInLake(w: K.World, steps: seq<Step>, retry: K.RetryPolicy, job: C.Job, rowOf: Event -> C.Row,
                             eventOf: C.Row -> Event)
    requires R.Initial(w) && K.ValidPolicy(retry) && C.IsPrefix(job.prefix)
    requires LegalRun(Joint(w, C.Machine(map[], C.Idle)), steps, K.BronzeService(retry), job,
                      EndToEnd.LakeKey(Keys.Bronze, eventOf), rowOf)
    requires var j := Run(Joint(w, C.Machine(map[], C.Idle)), steps, K.BronzeService(retry), job,
                          EndToEnd.LakeKey(Keys.Bronze, eventOf), rowOf);
             AdapterLogs(j.world.logs, rowOf, eventOf)
    ensures var j := Run(Joint(w, C.Machine(map[], C.Idle)), steps, K.BronzeService(retry), job,
                         EndToEnd.LakeKey(Keys.Bronze, eventOf), rowOf);
            forall p, i :: Below(j.world, p, i) ==> InLake(j.world.logs[p][i], j.machine.objects, job.prefix)
  {
    var start, service, keyOf := Joint(w, C.Machine(map[], C.Idle)), K.BronzeService(retry), EndToEnd.LakeKey(Keys.Bronze, eventOf);
    var j, trace := Run(start, steps, service, job, keyOf, rowOf), Trace(start, steps, service, job, keyOf, rowOf);
    JointRun(start, steps, service, job, keyOf, rowOf);
    forall p, i | Below(j.world, p, i) ensures InLake(j.world.logs[p][i], j.machine.objects, job.prefix) {
      PutStaysInLake(j.world, trace, job, rowOf, eventOf, p, i);
    }
  }
}
