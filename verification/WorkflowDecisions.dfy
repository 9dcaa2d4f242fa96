/** What each decision of the task workflow depends on, said in terms of what the run reads: the
    checks, the checkout, the options. */
module WorkflowDecisions {
  import opened Common
  import opened TaskWorkflow
  import opened WorkflowSafety

  /** What the next command finds, whoever was at work before it. */
  function Found(w: World): Repo {
    Command(w).world.repo
  }

  // ---------------------------------------------------------------- polls and merges

  /** One poll. No merge command is issued unless the list was complete, nothing in it failed or was
      pending, every required name had passed, and merging was asked for; and then at most one. */
  lemma MergeOnlyWhenGreen(w: World, args: Args, poll: Poll)
    ensures var merges := PollOnce(w, args, poll).world.merges;
            merges == w.merges
            || (poll.total <= 100 && AllGreen(poll.checks, w.state.required + args.required) && args.autoMerge
                && merges == w.merges + [MergeCommand(w.state.reviewed, w.state.approvedHead, poll.checks,
                                                      w.state.required + args.required)])
  {
    ReadChecksKeep(w, poll);
    var w1 := ReadChecks(w, poll).world;
    PollDecides(w1, args, poll.checks);
    ChecksPassIff(poll.checks, w.state.required + args.required);
    MergeGreenIssues(w1, args, poll.checks);
  }

  lemma MergeGreenIssues(w: World, args: Args, checks: seq<Check>)
    ensures var merges := MergeGreen(w, args, checks).world.merges;
            merges == w.merges
            || (args.autoMerge
                && merges == w.merges + [MergeCommand(w.state.reviewed, w.state.approvedHead, checks,
                                                      w.state.required + args.required)])
  {
    GateKeeps(w);
    var w1 := Gate(w).world;
    ReadsKeep(w1);
    ConfirmIssues(ViewPr(w1).world, args, checks);
  }

  lemma ConfirmIssues(w: World, args: Args, checks: seq<Check>)
    ensures var merges := ConfirmMerge(w, args, checks).world.merges;
            merges == w.merges
            || merges == w.merges + [MergeCommand(w.state.reviewed, w.state.approvedHead, checks,
                                                  w.state.required + args.required)]
  {
    CommandKeeps(w);
  }

  /** What a poll decides, once it could be read. A failed check sends the task back to the
      implementer, a missing or pending one lets the loop wait, and green ones without the option to
      merge pause the task where it is; a list that is not complete stops the run. */
  lemma PollOutcome(w: World, args: Args, poll: Poll)
    ensures var e, required := PollOnce(w, args, poll), w.state.required + args.required;
            && (poll.total > 100 ==> e.Stopped? && e.world.state == w.state)
            && (e.Ran? && (exists c :: c in poll.checks && c.bucket == Fail) ==>
                  e.value == Some(Continue) && e.world.state == w.state.(phase := Fix))
            && (e.Ran? && Waiting(poll.checks, required) ==> e.value == None && e.world.state == w.state)
            && (e.Ran? && AllGreen(poll.checks, required) && args.autoMerge ==>
                  e.value == Some(Continue) && e.world.state == w.state.(phase := MergedPhase))
            && (e.Ran? && AllGreen(poll.checks, required) && !args.autoMerge ==>
                  e.value == Some(Pause) && e.world.state == w.state)
  {
    ReadChecksKeep(w, poll);
    var w1 := ReadChecks(w, poll).world;
    PollDecides(w1, args, poll.checks);
    MergeGreenMoves(w1, args, poll.checks);
    ReadsKeepState(w1);
    ReadsKeepState(Gate(w1).world);
    ConfirmContinues(ViewPr(Gate(w1).world).world, args, poll.checks);
  }

  lemma ConfirmContinues(w: World, args: Args, checks: seq<Check>)
    ensures ConfirmMerge(w, args, checks).Ran? ==> ConfirmMerge(w, args, checks).value == Continue
  {
  }

  /** Polls that never decide end in the deadline: the run stops, with no merge and the state kept. */
  lemma {:induction false} PollsRunOut(w: World, args: Args, polls: seq<Poll>)
    requires forall i :: 0 <= i < |polls| ==> Waiting(polls[i].checks, w.state.required + args.required)
    ensures var e := PollChecks(w, args, polls); e.Stopped? && e.world.state == w.state && e.world.merges == w.merges
    decreases |polls|
  {
    if polls != [] {
      ReadChecksKeep(w, polls[0]);
      PollDecides(ReadChecks(w, polls[0]).world, args, polls[0].checks);
      if PollOnce(w, args, polls[0]).Ran? {
        PollsRunOut(PollOnce(w, args, polls[0]).world, args, polls[1..]);
      }
    }
  }

  /** A pull request that turns out to be merged already needs no checks and no merge command. */
  lemma AlreadyMerged(w: World, args: Args, polls: seq<Poll>)
    requires Gate(w).Ran? && MergedAt(Found(Gate(w).world).prs, w.state.pr, w.state.approvedHead)
    requires Command(Gate(w).world).Ran?
    ensures var e := CiTask(w, args, polls);
            e.world.merges == w.merges && (e.Ran? ==> e.value == Continue && e.world.state == w.state.(phase := MergedPhase))
            && (e.Ran? <==> Command(Command(Gate(w).world).world).Ran?)
  {
    GateKeeps(w);
    ReadsKeepState(w);
    CommandKeeps(Gate(w).world);
    CommandKeeps(Command(Gate(w).world).world);
  }

  // ---------------------------------------------------------------- which names a merge required

  /** The required names of the task stay; every merge command added names them and those of the
      arguments; and a task that has not been started has not merged. */
  ghost predicate Names(w: World, w': World, args: Args) {
    && w'.state.required == w.state.required && w.merges <= w'.merges
    && (forall i :: |w.merges| <= i < |w'.merges| ==> w'.merges[i].required == w.state.required + args.required)
    && (w'.state.phase == Unstarted ==> w.state.phase == Unstarted && w'.merges == w.merges)
  }

  /** A step that issues no merge command. */
  ghost predicate Silent(w: World, w': World) {
    w'.state.required == w.state.required && w'.merges == w.merges
    && (w'.state.phase == Unstarted ==> w.state.phase == Unstarted)
  }

  lemma GateSilent(w: World)
    ensures Silent(w, Gate(w).world) && Silent(w, ViewPr(w).world) && Silent(w, Checkout(w).world)
  {
    GateKeeps(w);
    ReadsKeep(w);
    CheckoutKeeps(w);
  }

  lemma SaveSilent(w: World, st: State)
    requires st.required == w.state.required && st.phase != Unstarted
    ensures Silent(w, Save(w, st).world)
  {
    CommandKeeps(w);
  }

  lemma BeginSilent(w: World, args: Args)
    ensures Silent(w, BeginAttempt(w, args).world)
  {
    GateSilent(w);
    var w1 := Checkout(w).world;
    if Checkout(w).Ran? {
      SaveSilent(w1, w1.state.(phase := AgentRunning, rounds := w1.state.rounds + 1, before := Checkout(w).value));
    }
  }

  lemma FinishSilent(w: World, before: Sha)
    ensures Silent(w, FinishAttempt(w, before).world)
  {
    GateSilent(w);
    var w1 := Checkout(w).world;
    SaveSilent(w1, w1.state.(phase := Review));
  }

  lemma ImplementSilent(w: World, args: Args)
    ensures Silent(w, ImplementTask(w, args).world)
  {
    BeginSilent(w, args);
    var w1 := BeginAttempt(w, args).world;
    CommandKeeps(w1.(launches := w1.launches + 1));
    if BeginAttempt(w, args).Ran? {
      FinishSilent(RunAgent(w1).world, BeginAttempt(w, args).value);
    }
  }

  lemma RecordSilent(w: World, head: Sha, tip: Sha, verdict: Verdict)
    ensures Silent(w, RecordVerdict(w, head, tip, verdict).world)
  {
  }

  lemma ReviewSilent(w: World, output: Text, sha: Sha)
    ensures Silent(w, ReviewTask(w, output, sha).world)
  {
    AskReviewerKeeps(w);
    var e := AskReviewer(w);
    if e.Ran? && ReviewVerdict(output, e.value).Ok? {
      var c := CommitReport(Noted(e.world, e.value, output), output, sha);
      CommandKeeps(Noted(e.world, e.value, output));
      assert Silent(w, c.world);
      var verdict := ReviewVerdict(output, e.value).value;
      ReadsKeep(c.world);
      if c.Ran? && Tip(c.world, verdict).Ran? {
        RecordSilent(Tip(c.world, verdict).world, e.value, Tip(c.world, verdict).value, verdict);
      }
    }
  }

  lemma OpenSilent(w: World, openPrs: seq<nat>, created: nat)
    ensures Silent(w, OpenPr(w, openPrs, created).world)
  {
    PushKeeps(w);
    var w1 := PushBranch(w).world;
    CommandKeeps(w1);
    CreateKeeps(Command(w1).world, created);
  }

  lemma PublishSilent(w: World, openPrs: seq<nat>, created: nat)
    ensures Silent(w, PublishTask(w, openPrs, created).world)
  {
    GateSilent(w);
    OpenSilent(Gate(w).world, openPrs, created);
  }

  lemma CleanupSilent(w: World, worktreeExists: bool)
    ensures Silent(w, CleanupTask(w, worktreeExists).world)
  {
    ReadsKeep(w);
    var w1 := ViewPr(w).world;
    ReadsKeep(w1);
    var w2 := Clean(w1).world;
    GateSilent(w2);
    RemovalSilent(if worktreeExists then Gate(w2).world else w2);
  }

  lemma RemovalSilent(w: World)
    ensures Silent(w, FinishRemoval(w).world)
  {
    CommandKeeps(w);
    DeleteKeeps(Command(w).world);
    var w2 := DeleteRemote(Command(w).world).world;
    CommandKeeps(w2);
  }

  lemma PollNames(w: World, args: Args, poll: Poll)
    requires w.state.phase == Ci
    ensures Names(w, PollOnce(w, args, poll).world, args)
  {
    MergeOnlyWhenGreen(w, args, poll);
    ReadChecksKeep(w, poll);
    var w1 := ReadChecks(w, poll).world;
    PollDecides(w1, args, poll.checks);
    MergeGreenState(w1, args, poll.checks);
    ChecksPassIff(poll.checks, w.state.required + args.required);
  }

  lemma ConfirmState(w: World, args: Args, checks: seq<Check>)
    ensures ConfirmMerge(w, args, checks).world.state in {w.state, w.state.(phase := MergedPhase)}
  {
    CommandKeeps(w);
    var w1 := MergePr(w, w.state.approvedHead, checks, w.state.required + args.required).world;
    assert w1.state == w.state;
    ReadsKeepState(w1);
    CommandKeeps(ViewPr(w1).world);
  }

  lemma MergeGreenState(w: World, args: Args, checks: seq<Check>)
    requires w.state.phase == Ci
    ensures MergeGreen(w, args, checks).world.state in {w.state, w.state.(phase := MergedPhase)}
  {
    ReadsKeepState(w);
    var w1 := Gate(w).world;
    ReadsKeepState(w1);
    ConfirmState(ViewPr(w1).world, args, checks);
  }

  lemma {:induction false} PollsNames(w: World, args: Args, polls: seq<Poll>)
    requires w.state.phase == Ci
    ensures Names(w, PollChecks(w, args, polls).world, args)
    decreases |polls|
  {
    if polls != [] {
      PollNames(w, args, polls[0]);
      var e := PollOnce(w, args, polls[0]);
      if e.Ran? && e.value == None {
        PollOutcome(w, args, polls[0]);
        ChecksPassIff(polls[0].checks, w.state.required + args.required);
        PollsNames(e.world, args, polls[1..]);
      }
    }
  }

  lemma CiNames(w: World, args: Args, polls: seq<Poll>)
    requires w.state.phase == Ci
    ensures Names(w, CiTask(w, args, polls).world, args)
  {
    GateSilent(w);
    ReadsKeepState(w);
    var w1 := Gate(w).world;
    GateSilent(w1);
    ReadsKeepState(w1);
    var w2 := ViewPr(w1).world;
    SaveSilent(w2, w2.state.(phase := MergedPhase));
    if Gate(w).Ran? && ViewPr(w1).Ran? {
      PollsNames(w2, args, polls);
    }
  }

  lemma PhaseNames(w: World, args: Args, inputs: Inputs)
    ensures Names(w, RunPhase(w, args, inputs).world, args)
  {
    match w.state.phase
    case Implement => ImplementSilent(w, args);
    case Fix => ImplementSilent(w, args);
    case Review => ReviewSilent(w, inputs.output, inputs.sha);
    case ApprovedPhase => PublishSilent(w, inputs.openPrs, inputs.created);
    case Ci => CiNames(w, args, inputs.polls);
    case MergedPhase => CleanupSilent(w, inputs.worktreeExists);
    case _ =>
  }

  lemma {:induction false} LoopNames(w: World, args: Args, inputs: nat -> Inputs, i: nat)
    ensures Names(w, Loop(w, args, inputs, i), args)
    decreases Measure(w, args)
  {
    PhaseNames(w, args, inputs(i));
    PhaseDecreases(w, args, inputs(i));
    match RunPhase(w, args, inputs(i))
    case Stopped(w1) =>
    case Ran(w1, next) =>
      if next == Again { LoopNames(w1, args, inputs, i + 1); }
  }

  lemma StartNames(w: World, args: Args)
    ensures var w' := Start(w, args).world;
            w'.merges == w.merges && (w'.state.phase == Unstarted ==> w.state.phase == Unstarted)
            && (w'.state.required == w.state.required || (w.state.phase == Unstarted && w'.state.required == args.required))
  {
    AgainSilent(w);
    PrepareNames(if args.reviewAgain then ReviewAgain(w).world else w, args);
  }

  lemma AgainSilent(w: World)
    ensures Silent(w, ReviewAgain(w).world)
  {
    FinishSilent(w, "");
    GateSilent(w);
    var w1 := Checkout(w).world;
    SaveSilent(w1, w1.state.(phase := Review));
  }

  lemma PrepareNames(w: World, args: Args)
    ensures var w' := PrepareTask(w, args).world;
            w'.merges == w.merges && (w'.state.phase == Unstarted ==> w.state.phase == Unstarted)
            && (w'.state.required == w.state.required || (w.state.phase == Unstarted && w'.state.required == args.required))
  {
    ReadsKeep(w);
    var w1 := Clean(w).world;
    CommandKeeps(w1);
    var w2 := Reserve(w1, args).world;
    GateSilent(w2);
    var w3 := Checkout(w2).world;
    SaveSilent(w3, w3.state.(phase := Implement));
  }

  /** Every merge command required the names recorded for the task. */
  ghost predicate Recorded(w: World) {
    (w.state.phase == Unstarted ==> w.merges == []) && forall m :: m in w.merges ==> w.state.required <= m.required
  }

  /** Over every history: a merge command requires the names recorded in the state, and those given
      to the invocation that issued it. */
  lemma {:induction false} MergesNameRequired(w: World, invs: seq<Invocation>)
    requires Recorded(w)
    ensures Recorded(History(w, invs))
    ensures invs != [] ==>
              var before, after := History(w, invs[..|invs| - 1]), History(w, invs);
              before.merges <= after.merges
              && forall i :: |before.merges| <= i < |after.merges| ==>
                   after.merges[i].required == after.state.required + invs[|invs| - 1].args.required
  {
    if invs != [] {
      var inv := invs[|invs| - 1];
      MergesNameRequired(w, invs[..|invs| - 1]);
      InvocationNames(History(w, invs[..|invs| - 1]), inv);
    }
  }

  lemma InvocationNames(w: World, inv: Invocation)
    requires Recorded(w)
    ensures var w' := Invoke(w, inv);
            Recorded(w') && w.merges <= w'.merges
            && forall i :: |w.merges| <= i < |w'.merges| ==> w'.merges[i].required == w'.state.required + inv.args.required
  {
    var w0 := w.(moves := inv.moves);
    StartNames(w0, inv.args);
    var w1 := Start(w0, inv.args).world;
    assert Recorded(w1);
    LoopNames(w1, inv.args, inv.inputs, 0);
    NamesRecorded(w1, Loop(w1, inv.args, inv.inputs, 0), inv.args);
  }

  lemma NamesRecorded(w: World, w': World, args: Args)
    requires Recorded(w) && Names(w, w', args)
    ensures Recorded(w')
  {
    forall m | m in w'.merges ensures w'.state.required <= m.required {
      var i :| 0 <= i < |w'.merges| && w'.merges[i] == m;
      if i < |w.merges| {
        assert w.merges[i] == m;
      }
    }
  }

  // ---------------------------------------------------------------- how an invocation starts

  /** A task that starts records the names to require and no rounds, one that was interrupted while
      being prepared keeps its own, and both go to the implementer; any other resumes untouched. */
  lemma StartSets(w: World, args: Args)
    requires !args.reviewAgain
    ensures var e, started := Start(w, args), w.state.(phase := Implement, rounds := 0, required := args.required);
            && (w.state.phase == Unstarted ==> (e.Ran? ==> e.world.state == started))
            && (w.state.phase == Preparing ==> (e.Ran? ==> e.world.state == w.state.(phase := Implement)))
            && (w.state.phase !in {Unstarted, Preparing} ==> e == Ran(w, ()))
  {
    ReadsKeepState(w);
    var w1 := Clean(w).world;
    ReadsKeepState(w1);
    ReadsKeepState(Reserve(w1, args).world);
  }

  /** A second review can be asked for unless there is nothing to review or the merge is done, and
      then nothing but the phase changes. */
  lemma ReviewAgainSets(w: World, args: Args)
    requires args.reviewAgain
    ensures var e := Start(w, args);
            && (w.state.phase in {Unstarted, MergedPhase, Done} ==> e == Stopped(w))
            && (e.Ran? ==> e.world.state == w.state.(phase := Review) && e.world.merges == w.merges)
  {
    ReadsKeepState(w);
    AgainSilent(w);
  }

  /** A task whose agent was interrupted, or that was marked as blocked, is left alone until a second
      review is asked for; so is one that is done. */
  lemma LeftAlone(w: World, inv: Invocation)
    requires w.state.phase in {AgentRunning, BlockedPhase, Done} && !inv.args.reviewAgain
    ensures Invoke(w, inv) == w.(moves := inv.moves)
  {
  }

  // ---------------------------------------------------------------- the checkout

  /** The checkout as a command finds it: who is at work in it has left it clean and in place. */
  predicate Usable(r: Repo) {
    r.clean && r.settled
  }

  /** Uncommitted changes stop every phase that works on the task branch, before anything else
      happens: the state, the launches, the merge commands, the gates and the reviews stay. */
  lemma DirtyCheckoutStops(w: World, args: Args, inputs: Inputs)
    requires w.state.phase in {Implement, Fix, Review, ApprovedPhase, Ci} && !Found(w).clean
    ensures RunPhase(w, args, inputs).Stopped? && Keeps(w, RunPhase(w, args, inputs).world)
  {
    CommandKeeps(w);
  }

  /** Nor does a task start, or start a second review, in such a checkout. */
  lemma DirtyStart(w: World, args: Args)
    requires args.reviewAgain || w.state.phase in {Unstarted, Preparing}
    requires !Found(w).clean
    ensures Start(w, args).Stopped? && Keeps(w, Start(w, args).world)
  {
    CommandKeeps(w);
  }

  /** The gate judges the report as it lies in the worktree: in a clean one that of HEAD, in another
      one the text it was changed to. */
  lemma ReportInWorktree(r: Repo, st: State)
    ensures !r.clean && r.edited.Some? ==> (ReportApproves(r, st) <==> Approves(r.edited.value, st.reviewed))
    ensures r.clean && r.head in r.commits ==>
              (ReportApproves(r, st) <==> REPORT in r.commits[r.head] && Approves(r.commits[r.head][REPORT], st.reviewed))
  {
    if ReportText(r).Some? {
      VerdictApprovedExactly(ReportText(r).value, st.reviewed);
    }
  }

  /** Cleanup does nothing at all unless the host says that the task's own pull request was merged at
      the approved head. */
  lemma CleanupNeedsMerge(w: World, worktreeExists: bool)
    requires !MergedAt(Found(w).prs, w.state.pr, w.state.approvedHead)
    ensures CleanupTask(w, worktreeExists).Stopped? && Keeps(w, CleanupTask(w, worktreeExists).world)
  {
    CommandKeeps(w);
  }

  /** Nor in a dirty checkout. */
  lemma CleanupNeedsClean(w: World, worktreeExists: bool)
    requires !Found(ViewPr(w).world).clean
    ensures CleanupTask(w, worktreeExists).Stopped? && Keeps(w, CleanupTask(w, worktreeExists).world)
  {
    ReadsKeep(w);
    CommandKeeps(ViewPr(w).world);
    KeepsTransitive(w, ViewPr(w).world, Command(ViewPr(w).world).world);
  }

  /** It finishes a task whose worktree is still there only after one more gate for its pair. */
  lemma CleanupGates(w: World, worktreeExists: bool)
    ensures var e := CleanupTask(w, worktreeExists);
            && (e.Ran? && !worktreeExists ==> e.world.gates == w.gates)
            && (e.Ran? && worktreeExists ==>
                  exists raced :: e.world.gates == w.gates + [Passed(w.state.reviewed, w.state.approvedHead, raced)])
  {
    ReadsKeep(w);
    var w1 := ViewPr(w).world;
    ReadsKeep(w1);
    var w2 := Clean(w1).world;
    GateKeeps(w2);
    FinishKeepsGates(if worktreeExists then Gate(w2).world else w2);
  }

  lemma FinishKeepsGates(w: World)
    ensures FinishRemoval(w).world.gates == w.gates
  {
    CommandKeeps(w);
    DeleteKeeps(Command(w).world);
    CommandKeeps(DeleteRemote(Command(w).world).world);
  }

  /** A gate passes only in a clean checkout of the task branch at the approved head. */
  lemma GateNeedsCheckout(w: World)
    requires !Usable(Found(w)) || Found(w).head != w.state.approvedHead
    ensures Gate(w).Stopped? && Keeps(w, Gate(w).world)
  {
    CommandKeeps(w);
  }

  /** A checkout that nobody touches passes the gate exactly when it is clean, on the task branch, at
      the approved head, and that is the reviewed commit plus its approving report. */
  lemma GateIff(w: World)
    requires |w.moves| >= 3 && forall i :: 0 <= i < 3 ==> w.moves[i] == Go([])
    ensures Gate(w).Ran? <==> Usable(w.repo) && w.repo.head == w.state.approvedHead
                              && Reviewed(w.repo.commits, w.state.reviewed, w.state.approvedHead)
  {
    var w1 := Command(w).world;
    var w2 := Command(w1).world;
    assert w1.moves[0] == w.moves[1] && w2.moves[0] == w.moves[2];
    assert w1.repo == w.repo && w2.repo == w.repo && Command(w2).world.repo == w.repo;
    if w.repo.clean && w.repo.head in w.repo.commits && ReportText(w.repo).Some? {
      VerdictApprovedExactly(ReportText(w.repo).value, w.state.reviewed);
    }
  }

  /** The reviewing agent was asked about the commit that is still HEAD when it has answered, in a
      checkout on the task branch. */
  lemma ReviewSawHead(w: World)
    ensures var e := AskReviewer(w); e.Ran? ==> e.value == e.world.repo.head && e.world.repo.settled
  {
  }

  /** Nobody moves HEAD. */
  predicate HeadStill(moves: seq<Move>) {
    forall i :: 0 <= i < |moves| && moves[i].Go? ==> forall e :: e in moves[i].before ==> !e.MoveHead?
  }

  lemma {:induction false} StillKeepsHead(r: Repo, events: seq<Event>)
    requires forall e :: e in events ==> !e.MoveHead?
    ensures HappenAll(r, events).head == r.head
    decreases |events|
  {
    if events != [] {
      assert events[0] in events && forall e :: e in events[1..] ==> e in events;
      StillKeepsHead(Happen(r, events[0]), events[1..]);
    }
  }

  lemma CommandSameHead(w: World)
    requires HeadStill(w.moves)
    ensures Command(w).world.repo.head == w.repo.head && HeadStill(Command(w).world.moves)
  {
    if w.moves != [] && w.moves[0].Go? {
      StillKeepsHead(w.repo, w.moves[0].before);
    }
  }

  lemma CheckoutSameHead(w: World)
    requires HeadStill(w.moves)
    ensures var e := Checkout(w);
            e.world.repo.head == w.repo.head && HeadStill(e.world.moves) && (e.Ran? ==> e.value == w.repo.head)
  {
    CommandSameHead(w);
    CommandSameHead(Clean(w).world);
  }

  /** An implementer run that leaves no commit is paid for and not reviewed. */
  lemma NoCommitNoReview(w: World, args: Args)
    requires HeadStill(w.moves)
    ensures var e := ImplementTask(w, args); e.Stopped? && e.world.state.phase in {w.state.phase, AgentRunning}
  {
    CheckoutSameHead(w);
    var w1 := Checkout(w).world;
    ReadsKeepState(w);
    CommandSameHead(w1);
    var b := BeginAttempt(w, args);
    if b.Ran? {
      assert HeadStill(b.world.moves) && b.world.repo.head == w.repo.head && b.value == w.repo.head;
      CommandSameHead(b.world.(launches := b.world.launches + 1));
      var w2 := RunAgent(b.world).world;
      CheckoutSameHead(w2);
      ReadsKeepState(w2);
    }
  }

  // ---------------------------------------------------------------- what is written

  /** What a review records: the commit it read, and the head that carries its report when it
      approves. */
  lemma VerdictRecorded(w: World, head: Sha, tip: Sha, verdict: Verdict)
    requires RecordVerdict(w, head, tip, verdict).Ran?
    ensures var st := RecordVerdict(w, head, tip, verdict).world.state;
            && (verdict == Approved ==> st == w.state.(phase := ApprovedPhase, reviewed := head, approvedHead := tip))
            && (verdict == ChangesRequired ==> st == w.state.(phase := Fix, reviewed := head, approvedHead := ""))
            && verdict != Blocked
  {
  }

  /** After a review that asks for changes nothing but the two commands of committing the report and
      saving can fail, whatever happens to the checkout. */
  lemma ChangesAlwaysRecorded(w: World, output: Text, sha: Sha)
    requires AskReviewer(w).Ran? && ReviewVerdict(output, AskReviewer(w).value) == Ok(ChangesRequired)
    requires CommitReport(Noted(AskReviewer(w).world, AskReviewer(w).value, output), output, sha).Ran?
    ensures var committed := CommitReport(Noted(AskReviewer(w).world, AskReviewer(w).value, output), output, sha).world;
            ReviewTask(w, output, sha).Ran? <==> Command(committed).Ran?
  {
  }

  /** More than one open pull request stops the publication; otherwise the one there is, or the one
      created, is recorded. */
  lemma PublicationRecords(w: World, openPrs: seq<nat>, created: nat)
    ensures var e := PublishTask(w, openPrs, created);
            && (|openPrs| > 1 ==> e.Stopped? && e.world.state == w.state)
            && (e.Ran? && openPrs == [] ==> e.world.state == w.state.(phase := Ci, pr := created))
            && (e.Ran? && |openPrs| == 1 ==> e.world.state == w.state.(phase := Ci, pr := openPrs[0]))
  {
    ReadsKeepState(w);
    var w1 := Gate(w).world;
    PushKeeps(w1);
    ReadsKeepState(PushBranch(w1).world);
    CreateKeeps(Command(PushBranch(w1).world).world, created);
  }

  /** An implementer run is paid for, and the commit it starts from written down, before it starts. */
  lemma AttemptBegins(w: World, args: Args)
    ensures var e := BeginAttempt(w, args);
            && e.world.launches == w.launches
            && (e.Ran? ==> e.world.state == w.state.(phase := AgentRunning, rounds := w.state.rounds + 1, before := e.value))
            && (HeadStill(w.moves) && e.Ran? ==> e.value == w.repo.head)
            && (w.state.rounds >= args.maxRounds ==> e.Stopped? && e.world.state == w.state)
            && RunAgent(e.world).world.launches == w.launches + 1
  {
    CheckoutKeeps(w);
    if HeadStill(w.moves) {
      CheckoutSameHead(w);
    }
    var w1 := Checkout(w).world;
    CommandKeeps(w1);
  }

  // ---------------------------------------------------------------- what is done on the host

  /** Only the task's own pull request, as approved, is merged: with another head, branch, base or
      repository the run stops before any merge command. */
  lemma MergeNeedsPullRequest(w: World, args: Args, checks: seq<Check>)
    requires Gate(w).Ran?
    requires var prs, st := Found(Gate(w).world).prs, w.state;
             !(st.pr in prs && prs[st.pr].headOid == st.approvedHead && prs[st.pr].headRef == BRANCH
               && prs[st.pr].baseRef == "main" && !prs[st.pr].cross)
    ensures var e := MergeGreen(w, args, checks); e.Stopped? && e.world.merges == w.merges && e.world.state == w.state
  {
    GateKeeps(w);
    CommandKeeps(Gate(w).world);
  }

  /** A merge command changes at most the state of that pull request, from open to merged, and only
      while its head is the one named. */
  lemma MergesAtHeadOnly(w: World, head: Sha, checks: seq<Check>, required: set<string>)
    ensures var n, before, after := w.state.pr, Found(w), MergePr(w, head, checks, required).world.repo;
            after == before
            || (n in before.prs && before.prs[n].state == Open && before.prs[n].headOid == head
                && after == before.(prs := before.prs[n := before.prs[n].(state := Merged)]))
  {
    CommandKeeps(w);
  }

  /** The deletion of the branch is conditional on where it is at that moment, and a branch that is gone
      already is no obstacle. */
  lemma DeletesAtHeadOnly(w: World)
    ensures Found(w).remote != Some(w.state.approvedHead) ==>
              var e := DeleteBranch(w);
              e.Stopped? && (e.world.repo.remote == w.repo.remote || e.world.repo.remote == Found(w).remote)
    ensures Command(w).Ran? && Found(w).remote == None ==> DeleteRemote(w) == Command(w)
  {
    CommandKeeps(w);
  }
}
