/** A run of the workflow that merges code nobody reviewed: somebody moves HEAD to another commit
    before the approved head is recorded, and to the report commit and back at every gate. */
module WorkflowRace {
  import opened Common
  import opened TaskWorkflow
  import opened WorkflowSafety
  import opened WorkflowProgress

  const STILL := Go([])

  function Jump(sha: Sha): Move {
    Go([MoveHead(sha)])
  }

  lemma StillCommand(w: World)
    requires w.moves != [] && w.moves[0] == STILL
    ensures Command(w) == Ran(w.(moves := w.moves[1..]), ())
  {
  }

  lemma JumpCommand(w: World, sha: Sha)
    requires w.moves != [] && w.moves[0] == Jump(sha) && sha in w.repo.commits
    ensures Command(w) == Ran(w.(moves := w.moves[1..], repo := w.repo.(head := sha)), ())
  {
    var r := w.repo.(head := sha);
    assert [MoveHead(sha)][1..] == [] && HappenAll(r, []) == r;
    assert HappenAll(w.repo, [MoveHead(sha)]) == r;
  }

  /** `a` was approved and `sha` is its report commit, but the approved head on record is `c`. */
  ghost predicate Trapped(w: World, a: Sha, c: Sha, sha: Sha, output: Text) {
    Ready(w.repo) && c in w.repo.commits && c != sha
    && w.state.reviewed == a && w.state.approvedHead == c
    && ReportOnTop(w.repo, a, sha, output) && Approves(output, a) && Lookup(w.repo.commits[a], REPORT) != Some(output)
  }

  lemma TrappedReads(w: World, a: Sha, c: Sha, sha: Sha, output: Text)
    requires Trapped(w, a, c, sha, output) && w.repo.head == sha
    ensures ReportApproves(w.repo, w.state) && OnlyReportChanged(w.repo, w.state)
  {
    VerdictApprovedExactly(output, a);
    assert ChangedPaths(w.repo.commits[a], w.repo.commits[sha]) == {REPORT};
  }

  /** The gate reads HEAD at `c`, and report and diff at `sha`. */
  lemma RacedGate(w: World, rest: seq<Move>, a: Sha, c: Sha, sha: Sha, output: Text)
    requires w.moves == [STILL, Jump(sha), STILL] + rest && Trapped(w, a, c, sha, output) && w.repo.head == c
    ensures Gate(w) == Ran(w.(moves := rest, repo := w.repo.(head := sha), gates := w.gates + [Passed(a, c, true)]), ())
  {
    StillCommand(w);
    var w1 := w.(moves := [Jump(sha), STILL] + rest);
    assert w.moves[1..] == w1.moves;
    JumpCommand(w1, sha);
    var w2 := w1.(moves := [STILL] + rest, repo := w.repo.(head := sha));
    assert w1.moves[1..] == w2.moves;
    TrappedReads(w2, a, c, sha, output);
    StillCommand(w2);
    assert w2.moves[1..] == rest;
  }

  /** The review approves `a`; HEAD moves to `c` before the script asks for the approved head. */
  lemma RacedReview(w: World, rest: seq<Move>, output: Text, c: Sha, n: nat, sha: Sha)
    requires w.moves == [STILL, STILL, STILL, STILL, STILL, STILL, Jump(c), STILL] + rest
    requires Ready(w.repo) && ApprovingReview(w, output, sha) && c in w.repo.commits
    ensures var e := ReviewTask(w, output, sha);
            e.Ran? && e.world.moves == rest && Trapped(e.world, w.repo.head, c, sha, output) && e.world.repo.head == c
            && e.world.state.phase == ApprovedPhase && e.world.state.required == w.state.required
            && e.world.repo.commits[c] == w.repo.commits[c]
            && Lookup(e.world.repo.prs, n) == Lookup(w.repo.prs, n)
  {
    AskReviewerCalm(w, n, sha);
    var w5 := Noted(AskReviewer(w).world, w.repo.head, output);
    assert w5.moves == [STILL] + ([Jump(c), STILL] + rest);
    RacedVerdict(w5, rest, output, w.repo.head, c, sha);
    ApprovedReview(w, output, sha);
  }

  lemma RacedVerdict(w: World, rest: seq<Move>, output: Text, head: Sha, c: Sha, sha: Sha)
    requires w.moves == [STILL] + ([Jump(c), STILL] + rest) && head == w.repo.head
    requires Ready(w.repo) && ApprovingReview(w, output, sha) && c in w.repo.commits
    ensures var e := AfterVerdict(w, head, Approved, output, sha);
            e.Ran? && e.world.moves == rest && Trapped(e.world, head, c, sha, output) && e.world.repo.head == c
            && e.world.state.phase == ApprovedPhase && e.world.state.required == w.state.required
            && e.world.repo.commits[c] == w.repo.commits[c] && e.world.repo.prs == w.repo.prs
  {
    CommitStill(w, [Jump(c), STILL] + rest, output, sha);
    RacedTip(CommitReport(w, output, sha).world, rest, head, c, sha, output);
  }

  /** The approved head is asked for after HEAD has moved to `c`. */
  lemma RacedTip(w: World, rest: seq<Move>, head: Sha, c: Sha, sha: Sha, output: Text)
    requires w.moves == [Jump(c), STILL] + rest && Ready(w.repo) && c in w.repo.commits && c != sha
    requires ReportOnTop(w.repo, head, sha, output) && Approves(output, head)
    requires Lookup(w.repo.commits[head], REPORT) != Some(output)
    ensures Identity(w).Ran? && Identity(w).value == c
    ensures var e := RecordVerdict(Identity(w).world, head, c, Approved);
            e.Ran? && e.world.moves == rest && Trapped(e.world, head, c, sha, output) && e.world.repo.head == c
            && e.world.state == w.state.(phase := ApprovedPhase, reviewed := head, approvedHead := c)
            && e.world.repo == w.repo.(head := c)
  {
    JumpCommand(w, c);
    var w1 := w.(moves := [STILL] + rest, repo := w.repo.(head := c));
    assert w.moves[1..] == w1.moves;
    StillCommand(w1);
    assert w1.moves[1..] == rest;
  }

  lemma CommitStill(w: World, rest: seq<Move>, output: Text, sha: Sha)
    requires w.moves == [STILL] + rest && w.repo.head in w.repo.commits && sha !in w.repo.commits
    ensures CommitReport(w, output, sha)
         == Ran(w.(moves := rest, repo := w.repo.(commits := w.repo.commits[sha := w.repo.commits[w.repo.head][REPORT := output]],
                                                  head := sha)), ())
  {
    StillCommand(w);
    assert w.moves[1..] == rest;
  }

  /** The raced gate of publication; HEAD is back at `c` for the push. */
  lemma RacedPublish(w: World, rest: seq<Move>, a: Sha, c: Sha, sha: Sha, output: Text, n: nat)
    requires w.moves == [STILL, Jump(sha), STILL, Jump(c), STILL, STILL, STILL] + rest
    requires Trapped(w, a, c, sha, output) && w.repo.head == c && n !in w.repo.prs
    ensures var e := PublishTask(w, [], n);
            e.Ran? && e.world.moves == rest && Trapped(e.world, a, c, sha, output) && e.world.repo.head == c
            && e.world.state == w.state.(phase := Ci, pr := n) && OnHost(e.world, n, Open)
            && e.world.repo.commits == w.repo.commits
  {
    RacedGate(w, [Jump(c), STILL, STILL, STILL] + rest, a, c, sha, output);
    assert w.moves == [STILL, Jump(sha), STILL] + ([Jump(c), STILL, STILL, STILL] + rest);
    var w3 := Gate(w).world;
    JumpCommand(w3, c);
    var w4 := PushBranch(w3).world;
    assert w4.moves == [STILL, STILL, STILL] + rest && n !in w4.repo.prs && w4.repo.remote == Some(c);
    StillOpens(w4, rest, c, n);
  }

  lemma StillOpens(w: World, rest: seq<Move>, c: Sha, n: nat)
    requires w.moves == [STILL, STILL, STILL] + rest && n !in w.repo.prs && w.repo.remote == Some(c)
    ensures Command(w).Ran? && CreatePr(Command(w).world, n).Ran?
    ensures var w2 := CreatePr(Command(w).world, n).world;
            Save(w2, w2.state.(phase := Ci, pr := n))
            == Ran(w.(moves := rest, state := w.state.(phase := Ci, pr := n), repo := Opened(w.repo, n)), ())
  {
    StillCommand(w);
    var w1 := w.(moves := [STILL, STILL] + rest);
    assert w.moves[1..] == w1.moves;
    StillCommand(w1);
    var w2 := w1.(moves := [STILL] + rest, repo := Opened(w.repo, n));
    assert w1.moves[1..] == w2.moves;
    StillCommand(w2);
    assert w2.moves[1..] == rest;
  }

  lemma StillView(w: World, rest: seq<Move>, move: Move, n: nat, state: PrState)
    requires w.moves == [move] + rest && w.state.pr == n && OnHost(w, n, state)
    requires move == STILL || (exists h :: h in w.repo.commits && move == Jump(h))
    ensures var e := ViewPr(w);
            e.Ran? && e.value.state == state && e.world.moves == rest && e.world.state == w.state
            && e.world.repo == w.repo.(head := e.world.repo.head)
            && (move == STILL ==> e.world.repo.head == w.repo.head)
            && (forall h :: h in w.repo.commits && move == Jump(h) ==> e.world.repo.head == h)
  {
    assert w.moves[1..] == rest;
    if move == STILL {
      StillCommand(w);
    } else {
      var h :| h in w.repo.commits && move == Jump(h);
      JumpCommand(w, h);
    }
  }

  /** Trapped, HEAD at `c`, and the pull request open there. */
  ghost predicate AtRisk(w: World, a: Sha, c: Sha, sha: Sha, output: Text, n: nat) {
    Trapped(w, a, c, sha, output) && w.repo.head == c && w.state.pr == n && OnHost(w, n, Open)
  }

  /** A raced gate, and HEAD back at `c` when the pull request is looked at. */
  lemma RacedView(w: World, rest: seq<Move>, a: Sha, c: Sha, sha: Sha, output: Text, n: nat)
    requires w.moves == [STILL, Jump(sha), STILL, Jump(c)] + rest && AtRisk(w, a, c, sha, output, n)
    ensures Gate(w).Ran? && ViewPr(Gate(w).world).Ran? && ViewPr(Gate(w).world).value.state == Open
    ensures var w' := ViewPr(Gate(w).world).world;
            w'.moves == rest && AtRisk(w', a, c, sha, output, n) && w'.state == w.state && w'.repo.commits == w.repo.commits
  {
    RacedGate(w, [Jump(c)] + rest, a, c, sha, output);
    assert w.moves == [STILL, Jump(sha), STILL] + ([Jump(c)] + rest);
    StillView(Gate(w).world, rest, Jump(c), n, Open);
  }

  /** The raced gates of the checks phase, and a merge at `c`. */
  lemma RacedCi(w: World, args: Args, poll: Poll, a: Sha, c: Sha, sha: Sha, output: Text, n: nat)
    requires w.moves == [STILL, Jump(sha), STILL, Jump(c)]
                        + ([STILL, STILL] + [STILL, Jump(sha), STILL, STILL, STILL, STILL, STILL])
    requires AtRisk(w, a, c, sha, output, n)
    requires Green(poll, w.state.required + args.required) && args.autoMerge
    ensures var e := CiTask(w, args, [poll]);
            e.Ran? && e.value == Continue && e.world.moves == [] && e.world.state == w.state.(phase := MergedPhase)
            && OnHost(e.world, n, Merged) && e.world.repo.commits == w.repo.commits
  {
    RacedView(w, [STILL, STILL] + [STILL, Jump(sha), STILL, STILL, STILL, STILL, STILL], a, c, sha, output, n);
    RacedPoll(ViewPr(Gate(w).world).world, args, poll, a, c, sha, output, n);
  }

  lemma RacedPoll(w: World, args: Args, poll: Poll, a: Sha, c: Sha, sha: Sha, output: Text, n: nat)
    requires w.moves == [STILL, STILL] + [STILL, Jump(sha), STILL, STILL, STILL, STILL, STILL]
    requires AtRisk(w, a, c, sha, output, n)
    requires Green(poll, w.state.required + args.required) && args.autoMerge
    ensures var e := PollChecks(w, args, [poll]);
            e.Ran? && e.value == Continue && e.world.moves == [] && e.world.state == w.state.(phase := MergedPhase)
            && OnHost(e.world, n, Merged) && e.world.repo.commits == w.repo.commits
  {
    StillChecks(w, [STILL, Jump(sha), STILL, STILL, STILL, STILL, STILL], poll, n);
    RacedMerge(ReadChecks(w, poll).world, args, poll.checks, a, c, sha, output, n);
    SinglePoll(w, args, poll);
  }

  lemma StillChecks(w: World, rest: seq<Move>, poll: Poll, n: nat)
    requires w.moves == [STILL, STILL] + rest && w.state.pr == n && OnHost(w, n, Open) && poll.total <= 100
    ensures ReadChecks(w, poll) == Ran(w.(moves := rest), ())
  {
    StillCommand(w);
    var w1 := w.(moves := [STILL] + rest);
    assert w.moves[1..] == w1.moves;
    StillCommand(w1);
    assert w1.moves[1..] == rest;
  }

  lemma SinglePoll(w: World, args: Args, poll: Poll)
    requires ReadChecks(w, poll).Ran? && Green(poll, w.state.required + args.required)
    requires ReadChecks(w, poll).world.state == w.state
    ensures var e := MergeGreen(ReadChecks(w, poll).world, args, poll.checks);
            e.Ran? ==> PollChecks(w, args, [poll]) == e
  {
  }

  lemma RacedMerge(w: World, args: Args, checks: seq<Check>, a: Sha, c: Sha, sha: Sha, output: Text, n: nat)
    requires w.moves == [STILL, Jump(sha), STILL, STILL, STILL, STILL, STILL]
    requires AtRisk(w, a, c, sha, output, n) && args.autoMerge
    ensures var e := MergeGreen(w, args, checks);
            e.Ran? && e.value == Continue && e.world.moves == [] && e.world.state == w.state.(phase := MergedPhase)
            && OnHost(e.world, n, Merged) && e.world.repo.commits == w.repo.commits
  {
    RacedGate(w, [STILL, STILL, STILL, STILL], a, c, sha, output);
    assert w.moves == [STILL, Jump(sha), STILL] + [STILL, STILL, STILL, STILL];
    var w3 := Gate(w).world;
    assert w3.moves == [STILL] + [STILL, STILL, STILL];
    StillView(w3, [STILL, STILL, STILL], STILL, n, Open);
    ConfirmStill(ViewPr(w3).world, args, checks, n);
  }

  lemma ConfirmStill(w: World, args: Args, checks: seq<Check>, n: nat)
    requires w.moves == [STILL, STILL, STILL] && w.state.pr == n && OnHost(w, n, Open) && !w.repo.queueing
    ensures var e := ConfirmMerge(w, args, checks);
            e.Ran? && e.value == Continue && e.world.moves == [] && e.world.state == w.state.(phase := MergedPhase)
            && OnHost(e.world, n, Merged) && e.world.repo.commits == w.repo.commits
  {
    StillCommand(w);
    var w1 := MergePr(w, w.state.approvedHead, checks, w.state.required + args.required).world;
    assert w1.moves == [STILL] + [STILL] && OnHost(w1, n, Merged);
    StillView(w1, [STILL], STILL, n, Merged);
    StillCommand(ViewPr(w1).world);
  }

  // ---------------------------------------------------------------- the whole run

  /** The moves from the review on. */
  function RaceMoves(c: Sha, sha: Sha): seq<Move> {
    [STILL, STILL, STILL, STILL, STILL, STILL, Jump(c), STILL]
    + ([STILL, Jump(sha), STILL, Jump(c), STILL, STILL, STILL]
       + ([STILL, Jump(sha), STILL, Jump(c)]
          + ([STILL, STILL] + [STILL, Jump(sha), STILL, STILL, STILL, STILL, STILL])))
  }

  /** Merged at `c`, with `a` the commit that was reviewed. */
  ghost predicate MergedElsewhere(w: World, n: nat, a: Sha, c: Sha) {
    w.state.phase == MergedPhase && w.state.reviewed == a && w.state.approvedHead == c && w.state.pr == n
    && MergedAt(w.repo.prs, n, c)
  }

  lemma RacedFromCi(w: World, args: Args, inputs: nat -> Inputs, i: nat, a: Sha, c: Sha, sha: Sha, output: Text, n: nat)
    requires w.moves == [STILL, Jump(sha), STILL, Jump(c)]
                        + ([STILL, STILL] + [STILL, Jump(sha), STILL, STILL, STILL, STILL, STILL])
    requires AtRisk(w, a, c, sha, output, n) && w.state.phase == Ci && args.autoMerge
    requires |inputs(i).polls| == 1 && Green(inputs(i).polls[0], w.state.required + args.required)
    ensures var w' := Loop(w, args, inputs, i); MergedElsewhere(w', n, a, c) && w'.repo.commits == w.repo.commits
  {
    assert inputs(i).polls == [inputs(i).polls[0]];
    RacedCi(w, args, inputs(i).polls[0], a, c, sha, output, n);
    var w1 := CiTask(w, args, inputs(i).polls).world;
    LoopStep(w, w1, args, inputs, i);
    OutOfMoves(w1, args, inputs, i + 1);
  }

  /** The run is cut short after the merge was recorded. */
  lemma OutOfMoves(w: World, args: Args, inputs: nat -> Inputs, i: nat)
    requires w.moves == [] && w.state.phase == MergedPhase
    ensures Loop(w, args, inputs, i) == w
  {
    assert CleanupTask(w, inputs(i).worktreeExists) == Stopped(w);
  }

  lemma RacedFromApproval(w: World, args: Args, inputs: nat -> Inputs, i: nat, a: Sha, c: Sha, sha: Sha, output: Text, n: nat)
    requires w.moves == [STILL, Jump(sha), STILL, Jump(c), STILL, STILL, STILL]
                        + ([STILL, Jump(sha), STILL, Jump(c)]
                           + ([STILL, STILL] + [STILL, Jump(sha), STILL, STILL, STILL, STILL, STILL]))
    requires Trapped(w, a, c, sha, output) && w.repo.head == c && n !in w.repo.prs
    requires w.state.phase == ApprovedPhase && args.autoMerge && inputs(i).openPrs == [] && inputs(i).created == n
    requires |inputs(i + 1).polls| == 1 && Green(inputs(i + 1).polls[0], w.state.required + args.required)
    ensures var w' := Loop(w, args, inputs, i); MergedElsewhere(w', n, a, c) && w'.repo.commits == w.repo.commits
  {
    var rest := [STILL, Jump(sha), STILL, Jump(c)]
                + ([STILL, STILL] + [STILL, Jump(sha), STILL, STILL, STILL, STILL, STILL]);
    RacedPublish(w, rest, a, c, sha, output, n);
    var w1 := PublishTask(w, [], n).world;
    LoopStep(w, w1, args, inputs, i);
    RacedFromCi(w1, args, inputs, i + 1, a, c, sha, output, n);
  }

  /** From any task that awaits its review, for any other commit `c`: the review approves HEAD, every
      gate passes, the checks of `c` are green, and `c` is merged. */
  lemma RacedTaskMerges(w: World, args: Args, inputs: nat -> Inputs, i: nat, c: Sha, n: nat)
    requires w.moves == RaceMoves(c, inputs(i).sha) && Ready(w.repo) && w.state.phase == Review
    requires ApprovingReview(w, inputs(i).output, inputs(i).sha) && c in w.repo.commits && n !in w.repo.prs
    requires args.autoMerge && inputs(i + 1).openPrs == [] && inputs(i + 1).created == n
    requires |inputs(i + 2).polls| == 1 && Green(inputs(i + 2).polls[0], w.state.required + args.required)
    ensures var w' := Loop(w, args, inputs, i);
            MergedElsewhere(w', n, w.repo.head, c) && c in w'.repo.commits && w'.repo.commits[c] == w.repo.commits[c]
  {
    var sha, output := inputs(i).sha, inputs(i).output;
    var rest := [STILL, Jump(sha), STILL, Jump(c), STILL, STILL, STILL]
                + ([STILL, Jump(sha), STILL, Jump(c)]
                   + ([STILL, STILL] + [STILL, Jump(sha), STILL, STILL, STILL, STILL, STILL]));
    RacedReview(w, rest, output, c, n, sha);
    var w1 := ReviewTask(w, output, sha).world;
    LoopStep(w, w1, args, inputs, i);
    RacedFromApproval(w1, args, inputs, i + 1, w.repo.head, c, sha, output, n);
  }

  /** Moves of a fresh task: preparation, an agent that commits `a`, and the rest. */
  function FreshMoves(a: Sha, t: Tree, rest: seq<Move>): seq<Move> {
    [STILL, STILL, STILL, STILL, STILL]
    + ([STILL, STILL, STILL, Go([NewCommit(a, t), MoveHead(a)]), STILL, STILL, STILL] + rest)
  }

  function FreshRace(a: Sha, t: Tree, c: Sha, sha: Sha): seq<Move> {
    FreshMoves(a, t, RaceMoves(c, sha))
  }

  lemma FreshAttempt(a: Sha, t: Tree, rest: seq<Move>, n: nat, sha: Sha)
    requires a != sha
    ensures var moves := FreshMoves(a, t, rest);
            AttemptMoves(moves[5..], a, t, n, sha) && moves[5..][7..] == rest
  {
    var work := [NewCommit(a, t), MoveHead(a)];
    assert work[..|work| - 1] == [NewCommit(a, t)];
    assert Delivers(work, a, t, n, sha);
    var attempt := [STILL, STILL, STILL, Go(work), STILL, STILL, STILL] + rest;
    assert FreshMoves(a, t, rest)[5..] == attempt && attempt[7..] == rest;
    assert attempt[4..][0] == attempt[4] && attempt[4..][1] == attempt[5] && attempt[4..][2] == attempt[6];
  }

  /** One invocation of a fresh task, with every gate raced, merges any commit `c` of the repository;
      nobody reviewed it if it has no report. */
  lemma UnreviewedMerge(w: World, args: Args, inputs: nat -> Inputs, a: Sha, t: Tree, c: Sha, n: nat)
    requires Fresh(w) && Ready(w.repo)
    requires !args.reviewAgain && args.autoMerge && args.maxRounds >= 1
    requires a !in w.repo.commits && inputs(1).sha !in w.repo.commits && a != inputs(1).sha
    requires Approves(inputs(1).output, a) && Lookup(t, REPORT) != Some(inputs(1).output)
    requires c in w.repo.commits && REPORT !in w.repo.commits[c] && n !in w.repo.prs
    requires inputs(2).openPrs == [] && inputs(2).created == n
    requires |inputs(3).polls| == 1 && Green(inputs(3).polls[0], args.required)
    requires w.moves == FreshRace(a, t, c, inputs(1).sha)
    ensures var w' := Execute(w, args, inputs);
            MergedElsewhere(w', n, a, c) && !Reviewed(w'.repo.commits, a, c)
  {
    RaceIsReviewable(w, inputs, a, t, c, n);
    var w2 := FirstPhases(w, args, inputs, a, t, n);
    RestMerges(w, w2, args, inputs, a, c, n);
  }

  lemma RestMerges(w: World, w2: World, args: Args, inputs: nat -> Inputs, a: Sha, c: Sha, n: nat)
    requires AwaitsReview(w, w2, args, inputs, a, n) && w2.moves == RaceMoves(c, inputs(1).sha) && args.autoMerge
    requires c in w.repo.commits && REPORT !in w.repo.commits[c] && n !in w.repo.prs
    requires inputs(2).openPrs == [] && inputs(2).created == n
    requires |inputs(3).polls| == 1 && Green(inputs(3).polls[0], args.required)
    ensures var w' := Loop(w2, args, inputs, 1);
            MergedElsewhere(w', n, a, c) && !Reviewed(w'.repo.commits, a, c)
  {
    assert args.required + args.required == args.required;
    RacedTaskMerges(w2, args, inputs, 1, c, n);
  }

  lemma RaceIsReviewable(w: World, inputs: nat -> Inputs, a: Sha, t: Tree, c: Sha, n: nat)
    requires a !in w.repo.commits && inputs(1).sha !in w.repo.commits && a != inputs(1).sha
    requires Approves(inputs(1).output, a) && Lookup(t, REPORT) != Some(inputs(1).output)
    requires w.moves == FreshRace(a, t, c, inputs(1).sha)
    ensures Reviewable(w, inputs, a, t, n) && w.moves[5..][7..] == RaceMoves(c, inputs(1).sha)
  {
    FreshAttempt(a, t, RaceMoves(c, inputs(1).sha), n, inputs(1).sha);
  }

  // ---------------------------------------------------------------- witnesses

  function ApprovingReport(head: Sha): Text {
    [WorkflowReview(Object(map["head" := JString(head), "verdict" := JString("APPROVED"), "blocking_findings" := JInt(0)]))]
  }

  function Witness(moves: seq<Move>): World {
    World(Repo(map["r" := map[]], "r", true, true, None, None, map[], false), moves,
          State(Unstarted, 0, "", "", "", 0, {}), 0, [], [], [])
  }

  const WITNESS_ARGS := Args(1, true, false, {})

  function WitnessInputs(polls: seq<Poll>): Inputs {
    Inputs(ApprovingReport("a"), "s", [], 1, polls, true)
  }

  const GREEN_POLL := Poll([Check("ci", Pass)], 1)

  lemma WitnessApproves()
    ensures Approves(ApprovingReport("a"), "a")
  {
    var report := ApprovingReport("a");
    assert SoleFooter(report, 0) && ApprovingLine(report[0], "a");
  }

  /** The exception to the main theorem is real: a run from a fresh task ends with unreviewed code
      merged. */
  lemma GateRaces()
    ensures exists w: World, args: Args, inputs: nat -> Inputs ::
              Fresh(w) && (var w' := Execute(w, args, inputs);
                           w'.state.phase == MergedPhase && MergedAt(w'.repo.prs, w'.state.pr, w'.state.approvedHead)
                           && !Reviewed(w'.repo.commits, w'.state.reviewed, w'.state.approvedHead))
  {
    WitnessApproves();
    var ins := WitnessInputs([GREEN_POLL]);
    var w := Witness(FreshRace("a", map[], "r", "s"));
    var inputs := (i: nat) => ins;
    UnreviewedMerge(w, WITNESS_ARGS, inputs, "a", map[], "r", 1);
  }

  function Times<T>(x: T, n: nat): seq<T> {
    seq(n, i => x)
  }

  /** The hypotheses of `FreshTaskFinishes` can be met, with any number of pending polls. */
  lemma CooperationPossible(g: nat)
    ensures exists w: World, inputs: nat -> Inputs ::
              Fresh(w) && Ready(w.repo) && Cooperative(w, WITNESS_ARGS, inputs, "a", map[], g, 1)
  {
    WitnessApproves();
    var polls := Times(Poll([], 0), g) + [GREEN_POLL];
    var ins := WitnessInputs(polls);
    var inputs := (i: nat) => ins;
    var w := Witness(FreshMoves("a", map[], Times(STILL, 2 * g + 38)));
    FreshAttempt("a", map[], Times(STILL, 2 * g + 38), 1, "s");
    assert polls[g] == GREEN_POLL && forall i :: 0 <= i < g ==> polls[i] == Poll([], 0);
    assert GreenAt(polls, g, {});
    assert Reviewable(w, inputs, "a", map[], 1);
    assert Cooperative(w, WITNESS_ARGS, inputs, "a", map[], g, 1);
  }
}
