/** The repository-wide `run.lock`: exclusive creation, a separate write of the pid, removal on
    the way out, and a stale file after a crash. */
module RunLock {
  import opened Common

  type Pid = nat

  datatype Pc = Outside | Inside | Dead

  /** The lock file; `recorded` once its pid has been written. */
  datatype LockFile = Absent | Present(owner: Pid, recorded: bool)

  datatype System = System(lock: LockFile, pcs: map<Pid, Pc>)

  datatype Step =
    | Acquire(p: Pid)     // os.open(O_CREAT | O_EXCL)
    | Record(p: Pid)      // os.write
    | Release(p: Pid)     // finally: lock.unlink()
    | Crash(p: Pid)
    | Remove              // an operator who has checked that the recorded process is gone

  function Do(s: System, step: Step): System {
    match step
    case Acquire(p) =>
      if Lookup(s.pcs, p) == Some(Outside) && s.lock == Absent
      then System(Present(p, false), s.pcs[p := Inside]) else s
    case Record(p) =>
      if Lookup(s.pcs, p) == Some(Inside) && s.lock.Present? then s.(lock := s.lock.(recorded := true)) else s
    case Release(p) =>
      if Lookup(s.pcs, p) == Some(Inside) then System(Absent, s.pcs[p := Outside]) else s
    case Crash(p) =>
      if p in s.pcs then s.(pcs := s.pcs[p := Dead]) else s
    case Remove =>
      if s.lock.Present? && s.lock.recorded && Lookup(s.pcs, s.lock.owner) == Some(Dead)
      then s.(lock := Absent) else s
  }

  function Run(s: System, steps: seq<Step>): System {
    if steps == [] then s else Do(Run(s, steps[..|steps| - 1]), steps[|steps| - 1])
  }

  /** Whoever is inside owns the lock file. */
  ghost predicate Inv(s: System) {
    forall p :: p in s.pcs && s.pcs[p] == Inside ==> s.lock.Present? && s.lock.owner == p
  }

  /** At most one process is inside, in every interleaving with crashes and checked removals. */
  lemma {:induction false} MutualExclusion(s: System, steps: seq<Step>)
    requires Inv(s)
    ensures var s' := Run(s, steps);
            Inv(s') && forall p, q :: p in s'.pcs && q in s'.pcs && s'.pcs[p] == s'.pcs[q] == Inside ==> p == q
  {
    if steps != [] {
      MutualExclusion(s, steps[..|steps| - 1]);
    }
  }

  /** After the holder crashes nobody enters until the stale file is removed; and while its pid
      is not recorded, it is never removed. */
  lemma {:induction false} StaleLockExcludes(s: System, steps: seq<Step>)
    requires Inv(s) && s.lock.Present? && Lookup(s.pcs, s.lock.owner) == Some(Dead)
    requires !s.lock.recorded || forall i :: 0 <= i < |steps| ==> steps[i] != Remove
    ensures var s' := Run(s, steps);
            s'.lock == s.lock && Inv(s') && Lookup(s'.pcs, s.lock.owner) == Some(Dead)
            && forall p :: p in s'.pcs ==> s'.pcs[p] != Inside
  {
    if steps != [] {
      StaleLockExcludes(s, steps[..|steps| - 1]);
    }
  }

  /** Removing the file without that check lets two processes in. */
  lemma UncheckedRemovalBreaksExclusion()
    ensures var s := System(Absent, map[1 := Outside, 2 := Outside]);
            var s1 := Run(s, [Acquire(1)]).(lock := Absent);
            var s2 := Run(s1, [Acquire(2)]);
            Lookup(s2.pcs, 1) == Lookup(s2.pcs, 2) == Some(Inside)
  {
    var s := System(Absent, map[1 := Outside, 2 := Outside]);
    assert [Acquire(1)][..0] == [] && [Acquire(2)][..0] == [];
    var s1 := Run(s, [Acquire(1)]).(lock := Absent);
    assert Run(s, []) == s && Run(s1, []) == s1;
  }

  /** The lock can be used again: released by its holder, or, when the holder has crashed after writing
      its pid, removed. */
  lemma LockIsReusable(s: System, p: Pid, q: Pid)
    requires s.lock == Absent && p != q && Lookup(s.pcs, p) == Lookup(s.pcs, q) == Some(Outside)
    ensures var held := Do(s, Acquire(p));
            && Lookup(held.pcs, p) == Some(Inside) && Do(held, Acquire(q)) == held
            && Lookup(Do(Do(held, Release(p)), Acquire(q)).pcs, q) == Some(Inside)
            && Lookup(Do(Do(Do(Do(held, Record(p)), Crash(p)), Remove), Acquire(q)).pcs, q) == Some(Inside)
            && Do(Do(held, Crash(p)), Remove) == Do(held, Crash(p))
  {
  }
}
