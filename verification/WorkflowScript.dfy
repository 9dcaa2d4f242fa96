/** The workflow as the script runs it: an object that updates and persists its state. */
module WorkflowScript {
  import opened Common
  import opened TaskWorkflow
  import opened WorkflowSafety

  class Environment {
    var repo: Repo
    var moves: seq<Move>
    var launches: nat
    var merges: seq<MergeCommand>
    ghost var gates: seq<Passed>
    ghost var reviews: seq<Given>
  }

  /** How a method that returned `ok` relates to the specification of what it did. */
  ghost function End<T>(ok: bool, w: World, v: T): Exec<T> {
    if ok then Ran(w, v) else Stopped(w)
  }

  class Workflow {
    const env: Environment
    var state: State

    ghost function View(): World
      reads this, env
    {
      World(env.repo, env.moves, state, env.launches, env.merges, env.gates, env.reviews)
    }

    constructor (env: Environment, state: State)
      ensures this.env == env && this.state == state
    {
      this.env, this.state := env, state;
    }

    method RunCommand() returns (ok: bool)
      modifies env
      ensures End(ok, View(), ()) == Command(old(View()))
    {
      if env.moves == [] {
        return false;
      }
      var move := env.moves[0];
      env.moves := env.moves[1..];
      if move.Die? {
        return false;
      }
      env.repo := HappenAll(env.repo, move.before);
      ok := true;
    }

    method SaveState(st: State) returns (ok: bool)
      modifies this, env
      ensures End(ok, View(), ()) == Save(old(View()), st)
    {
      ok := RunCommand();
      if ok {
        state := st;
      }
    }

    method RequireClean() returns (ok: bool)
      modifies env
      ensures End(ok, View(), ()) == Clean(old(View()))
    {
      ok := RunCommand();
      ok := ok && env.repo.clean;
    }

    method ReadHead() returns (ok: bool, head: Sha)
      modifies env
      ensures End(ok, View(), head) == Identity(old(View()))
    {
      ok := RunCommand();
      ok, head := ok && env.repo.settled, env.repo.head;
    }

    method CheckoutHead() returns (ok: bool, head: Sha)
      modifies env
      ensures End(ok, View(), head) == Checkout(old(View()))
    {
      head := "";
      ok := RequireClean();
      if ok {
        ok, head := ReadHead();
      }
    }

    method Approved() returns (ok: bool)
      modifies env
      ensures End(ok, View(), ()) == Gate(old(View()))
    {
      ok := RunCommand();
      if !ok { return; }
      ghost var first := env.repo;
      ok := env.repo.clean && env.repo.settled && env.repo.head == state.approvedHead;
      if !ok { return; }
      ok := RunCommand();
      if !ok { return; }
      ghost var second := env.repo;
      ok := ReportApproves(env.repo, state);
      if !ok { return; }
      ok := RunCommand();
      if !ok { return; }
      ok := OnlyReportChanged(env.repo, state);
      if ok {
        env.gates := env.gates + [Passed(state.reviewed, state.approvedHead, Moved(first, second, env.repo))];
      }
    }

    method ViewPullRequest() returns (ok: bool, pr: PullRequest)
      modifies env
      ensures End(ok, View(), pr) == ViewPr(old(View()))
    {
      pr := PullRequest(Closed, "", "", "", false);
      ok := RunCommand();
      ok := ok && state.pr in env.repo.prs && PrMatches(env.repo.prs[state.pr], state);
      if ok {
        pr := env.repo.prs[state.pr];
      }
    }

    method Prepare(args: Args) returns (ok: bool)
      modifies this, env
      ensures End(ok, View(), ()) == PrepareTask(old(View()), args)
    {
      ok := RequireClean();
      if !ok { return; }
      if state.phase == Unstarted {
        ok := SaveState(state.(phase := Preparing, rounds := 0, required := args.required));
        if !ok { return; }
      }
      var head;
      ok, head := CheckoutHead();
      if !ok { return; }
      ok := SaveState(state.(phase := Implement));
    }

    method RunImplementer(args: Args) returns (ok: bool)
      modifies this, env
      ensures End(ok, View(), ()) == ImplementTask(old(View()), args)
    {
      var before;
      ok, before := PayForAttempt(args);
      if !ok { return; }
      ok := LaunchAgent();
      if !ok { return; }
      ok := CheckAttempt(before);
    }

    method LaunchAgent() returns (ok: bool)
      modifies env
      ensures End(ok, View(), ()) == RunAgent(old(View()))
    {
      env.launches := env.launches + 1;
      ok := RunCommand();
    }

    method PayForAttempt(args: Args) returns (ok: bool, before: Sha)
      modifies this, env
      ensures End(ok, View(), before) == BeginAttempt(old(View()), args)
    {
      ok, before := CheckoutHead();
      if !ok { return; }
      var attempt := state.rounds + 1;
      if attempt > args.maxRounds {
        ok := false;
        return;
      }
      ok := SaveState(state.(phase := AgentRunning, rounds := attempt, before := before));
    }

    method CheckAttempt(before: Sha) returns (ok: bool)
      modifies this, env
      ensures End(ok, View(), ()) == FinishAttempt(old(View()), before)
    {
      var head;
      ok, head := CheckoutHead();
      ok := ok && head != before;
      if ok {
        ok := SaveState(state.(phase := Review));
      }
    }

    method RunReview(output: Text, sha: Sha) returns (ok: bool)
      modifies this, env
      ensures End(ok, View(), ()) == ReviewTask(old(View()), output, sha)
    {
      var head, tip;
      ok, head := RunReviewer();
      if !ok { return; }
      var verdict := ReviewVerdict(output, head);
      ok := verdict.Ok?;
      if !ok { return; }
      env.reviews := env.reviews + [Given(head, output)];
      ok := CommitReviewReport(output, sha);
      if !ok { return; }
      tip := "";
      if verdict.value == Verdict.Approved {
        ok, tip := ReadHead();
        if !ok { return; }
      }
      ok := SaveVerdict(head, tip, verdict.value);
    }

    method RunReviewer() returns (ok: bool, head: Sha)
      modifies env
      ensures End(ok, View(), head) == AskReviewer(old(View()))
    {
      ok, head := CheckoutHead();
      if !ok { return; }
      ok := RunCommand();
      if !ok { return; }
      var again;
      ok, again := CheckoutHead();
      ok := ok && again == head;
    }

    method CommitReviewReport(output: Text, sha: Sha) returns (ok: bool)
      modifies env
      ensures End(ok, View(), ()) == CommitReport(old(View()), output, sha)
    {
      ok := RunCommand();
      ok := ok && env.repo.head in env.repo.commits && sha !in env.repo.commits;
      if ok {
        var tree := env.repo.commits[env.repo.head][REPORT := output];
        env.repo := env.repo.(commits := env.repo.commits[sha := tree], head := sha);
      }
    }

    method SaveVerdict(head: Sha, tip: Sha, verdict: Verdict) returns (ok: bool)
      modifies this, env
      ensures End(ok, View(), ()) == RecordVerdict(old(View()), head, tip, verdict)
    {
      ok := SaveState(state.(phase := if verdict == Verdict.Approved then ApprovedPhase else Fix,
                             reviewed := head,
                             approvedHead := if verdict == Verdict.Approved then tip else ""));
      if ok && verdict == Blocked {
        ok := SaveState(state.(phase := BlockedPhase));
        ok := false;
      }
    }

    method Publish(openPrs: seq<nat>, created: nat) returns (ok: bool)
      modifies this, env
      ensures End(ok, View(), ()) == PublishTask(old(View()), openPrs, created)
    {
      ok := Approved();
      if ok {
        ok := OpenPullRequest(openPrs, created);
      }
    }

    method OpenPullRequest(openPrs: seq<nat>, created: nat) returns (ok: bool)
      modifies this, env
      ensures End(ok, View(), ()) == OpenPr(old(View()), openPrs, created)
    {
      ok := Push();
      if !ok { return; }
      ok := RunCommand();
      ok := ok && |openPrs| <= 1;
      if !ok { return; }
      var number := created;
      if openPrs == [] {
        ok := CreatePullRequest(created);
        if !ok { return; }
      } else {
        number := openPrs[0];
      }
      ok := SaveState(state.(phase := Ci, pr := number));
    }

    method Push() returns (ok: bool)
      modifies env
      ensures End(ok, View(), ()) == PushBranch(old(View()))
    {
      ok := RunCommand();
      if ok {
        env.repo := Pushed(env.repo);
      }
    }

    method CreatePullRequest(created: nat) returns (ok: bool)
      modifies env
      ensures End(ok, View(), ()) == CreatePr(old(View()), created)
    {
      ok := RunCommand();
      if ok {
        env.repo := Opened(env.repo, created);
      }
    }

    method CheckCi(args: Args, polls: seq<Poll>) returns (ok: bool, outcome: CiOutcome)
      modifies this, env
      ensures End(ok, View(), outcome) == CiTask(old(View()), args, polls)
    {
      outcome := Continue;
      ok := Approved();
      if !ok { return; }
      var pr;
      ok, pr := ViewPullRequest();
      if !ok { return; }
      if pr.state == Merged {
        ok := SaveState(state.(phase := MergedPhase));
      } else {
        ok, outcome := PollUntilDecided(args, polls);
      }
    }

    method PollUntilDecided(args: Args, polls: seq<Poll>) returns (ok: bool, outcome: CiOutcome)
      modifies this, env
      ensures End(ok, View(), outcome) == PollChecks(old(View()), args, polls)
    {
      outcome := Continue;
      var i := 0;
      while i < |polls|
        invariant 0 <= i <= |polls|
        invariant PollChecks(View(), args, polls[i..]) == PollChecks(old(View()), args, polls)
      {
        var decision;
        assert polls[i..][0] == polls[i] && polls[i..][1..] == polls[i + 1..];
        ok, decision := PollOneTime(args, polls[i]);
        if !ok { return; }
        if decision.Some? {
          outcome := decision.value;
          return;
        }
        i := i + 1;
      }
      ok := false;
    }

    method PollOneTime(args: Args, poll: Poll) returns (ok: bool, decision: Option<CiOutcome>)
      modifies this, env
      ensures End(ok, View(), decision) == PollOnce(old(View()), args, poll)
    {
      decision := None;
      var pr;
      ok, pr := ViewPullRequest();
      if !ok { return; }
      ok := RunCommand();
      ok := ok && poll.total <= 100;
      if !ok { return; }
      ok, decision := Decide(args, poll.checks);
    }

    method Decide(args: Args, checks: seq<Check>) returns (ok: bool, decision: Option<CiOutcome>)
      modifies this, env
      ensures End(ok, View(), decision) == DecidePoll(old(View()), args, checks)
    {
      ok, decision := true, None;
      if exists c :: c in checks && c.bucket == Fail {
        ok := SaveState(state.(phase := Fix));
        decision := Some(Continue);
      } else if ChecksPass(checks, state.required + args.required) {
        var outcome;
        ok, outcome := MergeIfDelegated(args, checks);
        decision := Some(outcome);
      }
    }

    method MergeIfDelegated(args: Args, checks: seq<Check>) returns (ok: bool, outcome: CiOutcome)
      modifies this, env
      ensures End(ok, View(), outcome) == MergeGreen(old(View()), args, checks)
    {
      outcome := Pause;
      ok := Approved();
      if !ok { return; }
      var pr;
      ok, pr := ViewPullRequest();
      if ok && args.autoMerge {
        outcome := Continue;
        ok := MergeAndConfirm(args, checks);
      }
    }

    method MergeAndConfirm(args: Args, checks: seq<Check>) returns (ok: bool)
      modifies this, env
      ensures End(ok, View(), Continue) == ConfirmMerge(old(View()), args, checks)
    {
      ok := MergePullRequest(state.approvedHead, checks, state.required + args.required);
      if !ok { return; }
      var pr;
      ok, pr := ViewPullRequest();
      ok := ok && pr.state == Merged;
      if !ok { return; }
      ok := SaveState(state.(phase := MergedPhase));
    }

    method MergePullRequest(head: Sha, checks: seq<Check>, required: set<string>) returns (ok: bool)
      modifies env
      ensures End(ok, View(), ()) == MergePr(old(View()), head, checks, required)
    {
      ok := RunCommand();
      if !ok { return; }
      env.merges := env.merges + [MergeCommand(state.reviewed, head, checks, required)];
      var n := state.pr;
      if n in env.repo.prs && env.repo.prs[n].state == Merged {
        return;
      }
      ok := n in env.repo.prs && env.repo.prs[n].state == Open && env.repo.prs[n].headOid == head;
      if ok && !env.repo.queueing {
        env.repo := env.repo.(prs := env.repo.prs[n := env.repo.prs[n].(state := Merged)]);
      }
    }

    method Cleanup(worktreeExists: bool) returns (ok: bool)
      modifies this, env
      ensures End(ok, View(), ()) == CleanupTask(old(View()), worktreeExists)
    {
      var pr;
      ok, pr := ViewPullRequest();
      ok := ok && pr.state == Merged;
      if ok {
        ok := RemoveTaskWorktree(worktreeExists);
      }
    }

    method RemoveTaskWorktree(worktreeExists: bool) returns (ok: bool)
      modifies this, env
      ensures End(ok, View(), ()) == RemoveWorktree(old(View()), worktreeExists)
    {
      ok := RequireClean();
      if !ok { return; }
      if worktreeExists {
        ok := Approved();
        if !ok { return; }
      }
      ok := FinishTask();
    }

    method FinishTask() returns (ok: bool)
      modifies this, env
      ensures End(ok, View(), ()) == FinishRemoval(old(View()))
    {
      ok := RunCommand();
      if !ok { return; }
      ok := DeleteRemoteBranch();
      if !ok { return; }
      ok := RunCommand();
      if !ok { return; }
      ok := SaveState(state.(phase := Done));
    }

    method DeleteRemoteBranch() returns (ok: bool)
      modifies env
      ensures End(ok, View(), ()) == DeleteRemote(old(View()))
    {
      ok := RunCommand();
      if !ok || env.repo.remote.None? { return; }
      ok := env.repo.remote == Some(state.approvedHead);
      if !ok { return; }
      ok := RunCommand();
      ok := ok && env.repo.remote == Some(state.approvedHead);
      if ok {
        env.repo := env.repo.(remote := None);
      }
    }

    method DispatchPhase(args: Args, inputs: Inputs) returns (ok: bool, next: Next)
      modifies this, env
      ensures End(ok, View(), next) == RunPhase(old(View()), args, inputs)
    {
      ok, next := false, Again;
      match state.phase
      case Implement => ok := RunImplementer(args);
      case Fix => ok := RunImplementer(args);
      case Review => ok := RunReview(inputs.output, inputs.sha);
      case ApprovedPhase => ok := Publish(inputs.openPrs, inputs.created);
      case Ci =>
        var outcome;
        ok, outcome := CheckCi(args, inputs.polls);
        next := if outcome == Pause then Finished else Again;
      case MergedPhase => ok := Cleanup(inputs.worktreeExists);
      case Done => ok, next := true, Finished;
      case _ =>
    }

    method RestartReview() returns (ok: bool)
      modifies this, env
      ensures End(ok, View(), ()) == ReviewAgain(old(View()))
    {
      if state.phase in {Unstarted, MergedPhase, Done} {
        return false;
      }
      var head;
      ok, head := CheckoutHead();
      if ok {
        ok := SaveState(state.(phase := Phase.Review));
      }
    }

    /** The phase loop of `execute()`: it terminates, and does what the specification says. */
    method ExecuteTask(args: Args, inputs: nat -> Inputs)
      modifies this, env
      ensures View() == Execute(old(View()), args, inputs)
    {
      var ok := true;
      if args.reviewAgain {
        ok := RestartReview();
        if !ok { return; }
      }
      if state.phase == Unstarted || state.phase == Preparing {
        ok := Prepare(args);
        if !ok { return; }
      }
      var i := 0;
      ghost var start := View();
      var next := Again;
      while next == Again
        invariant next == Again ==> Loop(View(), args, inputs, i) == Loop(start, args, inputs, 0)
        invariant next == Finished ==> View() == Loop(start, args, inputs, 0)
        decreases next == Again, Measure(View(), args)
      {
        PhaseDecreases(View(), args, inputs(i));
        ok, next := DispatchPhase(args, inputs(i));
        if !ok { return; }
        i := i + 1;
      }
    }
  }
}
