/** The load test: event ids from per-worker counters, and workers that stop at a shared count they
    test before they produce. */
module LoadTest {
  import opened Common
  import opened Text

  // ---------------------------------------------------------------- event ids

  function EventId(runId: string, worker: nat, counter: nat): string {
    runId + "-" + Decimal(worker) + "-" + Decimal(counter)
  }

  lemma DigitsFree(n: nat)
    ensures Free(Decimal(n), '-')
  {
  }

  lemma NumbersInjective(w1: nat, c1: nat, w2: nat, c2: nat)
    requires Decimal(w1) + "-" + Decimal(c1) == Decimal(w2) + "-" + Decimal(c2)
    ensures w1 == w2 && c1 == c2
  {
    SplitNumbers(w1, c1);
    SplitNumbers(w2, c2);
    assert [Decimal(w1), Decimal(c1)] == [Decimal(w2), Decimal(c2)];
    assert [Decimal(w1), Decimal(c1)][1] == [Decimal(w2), Decimal(c2)][1];
    DecimalInjective(w1, w2);
    DecimalInjective(c1, c2);
  }

  lemma SplitNumbers(w: nat, c: nat)
    ensures Split(Decimal(w) + "-" + Decimal(c), '-') == [Decimal(w), Decimal(c)]
  {
    DigitsFree(w);
    DigitsFree(c);
    SplitHead(Decimal(w), Decimal(c), '-');
    SplitAtom(Decimal(c), '-');
  }

  /** Ids of one run are different for different workers or counters. */
  lemma EventIdInjective(runId: string, w1: nat, c1: nat, w2: nat, c2: nat)
    requires EventId(runId, w1, c1) == EventId(runId, w2, c2)
    ensures w1 == w2 && c1 == c2
  {
    var prefix := runId + "-";
    var a, b := Decimal(w1) + "-" + Decimal(c1), Decimal(w2) + "-" + Decimal(c2);
    assert EventId(runId, w1, c1) == prefix + a && EventId(runId, w2, c2) == prefix + b;
    assert (prefix + a)[|prefix|..] == a && (prefix + b)[|prefix|..] == b;
    NumbersInjective(w1, c1, w2, c2);
  }

  class EventGenerator {
    const runId: string
    const worker: nat
    var counter: nat

    constructor (runId: string, worker: nat)
      ensures this.runId == runId && this.worker == worker && counter == 0
    {
      this.runId, this.worker, counter := runId, worker, 0;
    }

    method NextEvent() returns (id: string)
      modifies this
      ensures counter == old(counter) + 1 && id == EventId(runId, worker, counter)
      ensures id == runId + "-" + Decimal(worker) + "-" + Decimal(counter)
    {
      counter := counter + 1;
      id := runId + "-" + Decimal(worker) + "-" + Decimal(counter);
      assert id == EventId(runId, worker, counter);
    }
  }

  // ---------------------------------------------------------------- workers

  datatype Worker = Worker(busy: bool, counter: nat)

  /** `made` lists the event of every `next_event` call, as (worker, counter). */
  datatype System = System(produced: nat, workers: seq<Worker>, made: seq<(nat, nat)>)

  /** `Take`: a worker sees that it may go on and generates an event. `Finish`: its produce call
      ends, and is counted unless it failed. */
  datatype Step = Take(w: nat) | Finish(w: nat, counted: bool)

  /** `total` 0 means no limit. */
  predicate MayTake(s: System, w: nat, total: nat) {
    w < |s.workers| && !s.workers[w].busy && (total > 0 ==> s.produced < total)
  }

  function Do(s: System, step: Step, total: nat): System {
    match step
    case Take(w) =>
      if !MayTake(s, w, total) then s
      else
        var counter := s.workers[w].counter + 1;
        System(s.produced, s.workers[w := Worker(true, counter)], s.made + [(w, counter)])
    case Finish(w, counted) =>
      if w < |s.workers| && s.workers[w].busy then
        System(if counted then s.produced + 1 else s.produced, s.workers[w := s.workers[w].(busy := false)], s.made)
      else s
  }

  function Run(s: System, steps: seq<Step>, total: nat): System {
    if steps == [] then s else Do(Run(s, steps[..|steps| - 1], total), steps[|steps| - 1], total)
  }

  function Start(workers: nat): System {
    System(0, seq(workers, i => Worker(false, 0)), [])
  }

  function InFlight(workers: seq<Worker>): (n: nat)
    ensures n <= |workers|
  {
    if workers == [] then 0
    else InFlight(workers[..|workers| - 1]) + (if workers[|workers| - 1].busy then 1 else 0)
  }

  lemma {:induction false} InFlightUpdate(workers: seq<Worker>, w: nat, worker: Worker)
    requires w < |workers|
    ensures InFlight(workers[w := worker])
         == InFlight(workers) - (if workers[w].busy then 1 else 0) + (if worker.busy then 1 else 0)
    ensures !workers[w].busy ==> InFlight(workers) < |workers|
  {
    var n := |workers| - 1;
    if w == n {
      assert workers[w := worker][..n] == workers[..n];
    } else {
      assert workers[w := worker][..n] == workers[..n][w := worker];
      InFlightUpdate(workers[..n], w, worker);
    }
  }

  ghost predicate Counted(s: System) {
    (forall i :: 0 <= i < |s.made| ==> s.made[i].0 < |s.workers| && 1 <= s.made[i].1 <= s.workers[s.made[i].0].counter)
    && Distinct(s.made)
  }

  lemma StepKeepsCounted(s: System, step: Step, total: nat)
    requires Counted(s)
    ensures Counted(Do(s, step, total))
  {
  }

  /** Every event of a run is generated once. */
  lemma {:induction false} EventsDistinct(workers: nat, steps: seq<Step>, total: nat)
    ensures var s := Run(Start(workers), steps, total); Counted(s) && |s.workers| == workers
  {
    if steps != [] {
      EventsDistinct(workers, steps[..|steps| - 1], total);
      StepKeepsCounted(Run(Start(workers), steps[..|steps| - 1], total), steps[|steps| - 1], total);
    }
  }

  /** All event ids of a run are different, in every interleaving. */
  lemma IdsDistinct(runId: string, workers: nat, steps: seq<Step>, total: nat, i: nat, j: nat)
    requires i < j < |Run(Start(workers), steps, total).made|
    ensures var made := Run(Start(workers), steps, total).made;
            EventId(runId, made[i].0, made[i].1) != EventId(runId, made[j].0, made[j].1)
  {
    EventsDistinct(workers, steps, total);
    var made := Run(Start(workers), steps, total).made;
    if EventId(runId, made[i].0, made[i].1) == EventId(runId, made[j].0, made[j].1) {
      EventIdInjective(runId, made[i].0, made[i].1, made[j].0, made[j].1);
    }
  }

  lemma {:induction false} NobodyBusy(workers: nat)
    ensures InFlight(Start(workers).workers) == 0
  {
    if workers > 0 {
      assert Start(workers).workers[..workers - 1] == Start(workers - 1).workers;
      NobodyBusy(workers - 1);
    }
  }

  /** The count is tested before an event is produced and raised after, so W workers can pass the
      limit together: at most W - 1 events too many. */
  lemma {:induction false} OvershootBounded(workers: nat, steps: seq<Step>, total: nat)
    requires total > 0 && workers > 0
    ensures var s := Run(Start(workers), steps, total);
            |s.workers| == workers && s.produced + InFlight(s.workers) <= total + workers - 1
  {
    if steps == [] {
      NobodyBusy(workers);
    } else {
      var before := steps[..|steps| - 1];
      OvershootBounded(workers, before, total);
      var s := Run(Start(workers), before, total);
      var step := steps[|steps| - 1];
      if step.w < |s.workers| {
        InFlightUpdate(s.workers, step.w, Do(s, step, total).workers[step.w]);
      }
    }
  }

  /** How often in a run the produce call of a busy worker failed. */
  function Failures(s: System, steps: seq<Step>, total: nat): nat {
    if steps == [] then 0
    else
      var before, step := steps[..|steps| - 1], steps[|steps| - 1];
      var workers := Run(s, before, total).workers;
      Failures(s, before, total)
      + (if step.Finish? && !step.counted && step.w < |workers| && workers[step.w].busy then 1 else 0)
  }

  /** Every event generated is produced, failed or in flight, in every interleaving. */
  lemma {:induction false} EveryEventAccounted(workers: nat, steps: seq<Step>, total: nat)
    ensures var s := Run(Start(workers), steps, total);
            s.produced + Failures(Start(workers), steps, total) + InFlight(s.workers) == |s.made|
  {
    if steps == [] {
      NobodyBusy(workers);
    } else {
      var before := steps[..|steps| - 1];
      EveryEventAccounted(workers, before, total);
      var s := Run(Start(workers), before, total);
      var step := steps[|steps| - 1];
      if step.w < |s.workers| {
        InFlightUpdate(s.workers, step.w, Do(s, step, total).workers[step.w]);
      }
    }
  }

  // ---------------------------------------------------------------- the bound is reached

  /** One worker makes `n` events. */
  function Alone(n: nat): seq<Step> {
    if n == 0 then [] else Alone(n - 1) + [Take(0), Finish(0, true)]
  }

  function TakeAll(n: nat): seq<Step> {
    if n == 0 then [] else TakeAll(n - 1) + [Take(n - 1)]
  }

  function FinishAll(n: nat): seq<Step> {
    if n == 0 then [] else FinishAll(n - 1) + [Finish(n - 1, true)]
  }

  lemma RunSnoc(s: System, steps: seq<Step>, step: Step, total: nat)
    ensures Run(s, steps + [step], total) == Do(Run(s, steps, total), step, total)
  {
    assert (steps + [step])[..|steps|] == steps;
  }

  lemma {:induction false} AloneMakes(workers: nat, n: nat, total: nat)
    requires workers > 0 && n < total
    ensures var s := Run(Start(workers), Alone(n), total);
            s.produced == n && |s.workers| == workers && forall w :: 0 <= w < workers ==> !s.workers[w].busy
  {
    if n > 0 {
      AloneMakes(workers, n - 1, total);
      RunSnoc(Start(workers), Alone(n - 1), Take(0), total);
      RunSnoc(Start(workers), Alone(n - 1) + [Take(0)], Finish(0, true), total);
      assert Alone(n) == Alone(n - 1) + [Take(0)] + [Finish(0, true)];
    }
  }

  /** The first `n` workers are busy, one event before the limit. */
  ghost predicate Waiting(s: System, workers: nat, n: nat, total: nat)
    requires total > 0
  {
    s.produced == total - 1 && |s.workers| == workers && forall w :: 0 <= w < workers ==> s.workers[w].busy == (w < n)
  }

  lemma NextTakes(s: System, workers: nat, n: nat, total: nat)
    requires total > 0 && n < workers && Waiting(s, workers, n, total)
    ensures Waiting(Do(s, Take(n), total), workers, n + 1, total)
  {
  }

  lemma {:induction false} AllTake(workers: nat, n: nat, total: nat)
    requires n <= workers && 0 < workers && total > 0
    ensures Waiting(Run(Start(workers), Alone(total - 1) + TakeAll(n), total), workers, n, total)
  {
    if n == 0 {
      AloneMakes(workers, total - 1, total);
      assert Alone(total - 1) + TakeAll(0) == Alone(total - 1);
    } else {
      var before := Alone(total - 1) + TakeAll(n - 1);
      AllTake(workers, n - 1, total);
      NextTakes(Run(Start(workers), before, total), workers, n - 1, total);
      RunSnoc(Start(workers), before, Take(n - 1), total);
      assert Alone(total - 1) + TakeAll(n) == before + [Take(n - 1)];
    }
  }

  /** The bound is tight. */
  lemma {:induction false} OvershootReached(workers: nat, n: nat, total: nat)
    requires n <= workers && 0 < workers && total > 0
    ensures var s := Run(Start(workers), Alone(total - 1) + TakeAll(workers) + FinishAll(n), total);
            s.produced == total - 1 + n && |s.workers| == workers
            && forall w :: n <= w < workers ==> s.workers[w].busy
  {
    var taken := Alone(total - 1) + TakeAll(workers);
    if n == 0 {
      AllTake(workers, workers, total);
      assert taken + FinishAll(0) == taken;
    } else {
      OvershootReached(workers, n - 1, total);
      RunSnoc(Start(workers), taken + FinishAll(n - 1), Finish(n - 1, true), total);
      assert taken + FinishAll(n) == taken + FinishAll(n - 1) + [Finish(n - 1, true)];
    }
  }

  // ---------------------------------------------------------------- the number of workers

  const MAX_SCALED := 64

  /** `needed` is the ceiling of target rate / 50 * 1.5. */
  function EffectiveWorkers(configured: nat, needed: nat, total: nat, disableAutoScaling: bool): nat {
    if disableAutoScaling then configured
    else
      var scaled := if needed <= MAX_SCALED then needed else MAX_SCALED;
      var effective := if configured >= scaled then configured else scaled;
      if total > 0 && effective > total then total else effective
  }

  /** The ceiling of rate / 50 * 1.5. */
  function Needed(rate: nat): nat {
    (3 * rate + 99) / 100
  }

  /** At 50 events a second each, the workers have half as much again as the target rate, unless they
      are 64 or more, or one for every event; and there are no more than that takes, unless so many
      were configured. */
  lemma RateSustained(configured: nat, rate: nat, total: nat)
    ensures var workers := EffectiveWorkers(configured, Needed(rate), total, false);
            && (100 * workers >= 3 * rate || workers >= 64 || (total > 0 && workers == total))
            && (workers >= configured || (total > 0 && workers == total))
            && (workers <= configured || (100 * (workers - 1) < 3 * rate && workers <= 64))
            && (total > 0 ==> workers <= total)
    ensures EffectiveWorkers(configured, Needed(rate), total, true) == configured
  {
  }

  /** With auto-scaling a run never makes twice its target. */
  lemma NeverTwiceTheTarget(configured: nat, needed: nat, total: nat, steps: seq<Step>)
    requires total > 0 && configured > 0
    ensures Run(Start(EffectiveWorkers(configured, needed, total, false)), steps, total).produced <= 2 * total - 1
  {
    OvershootBounded(EffectiveWorkers(configured, needed, total, false), steps, total);
  }
}
