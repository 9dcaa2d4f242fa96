/** Whole runs of the task workflow: only reviewed code is merged, the repair budget is kept,
    and every invocation terminates. */
module WorkflowSafety {
  import opened Common
  import opened TaskWorkflow

  // ---------------------------------------------------------------- one invocation

  /** What the reviewing agent, the code host and the filesystem contribute to one loop iteration. */
  datatype Inputs = Inputs(output: Text, sha: Sha, openPrs: seq<nat>, created: nat, polls: seq<Poll>, worktreeExists: bool)

  datatype Next = Again | Finished

  function Start(w: World, args: Args): Exec<()> {
    var (w1, _) :- if args.reviewAgain then ReviewAgain(w) else Ran(w, ());
    if w1.state.phase == Unstarted || w1.state.phase == Preparing then PrepareTask(w1, args) else Ran(w1, ())
  }

  function ReviewAgain(w: World): Exec<()> {
    if w.state.phase in {Unstarted, MergedPhase, Done} then Stopped(w)
    else
      var (w1, _) :- Checkout(w);
      Save(w1, w1.state.(phase := Review))
  }

  function RunPhase(w: World, args: Args, inputs: Inputs): Exec<Next> {
    match w.state.phase
    case Implement => var (w1, _) :- ImplementTask(w, args); Ran(w1, Again)
    case Fix => var (w1, _) :- ImplementTask(w, args); Ran(w1, Again)
    case Review => var (w1, _) :- ReviewTask(w, inputs.output, inputs.sha); Ran(w1, Again)
    case ApprovedPhase => var (w1, _) :- PublishTask(w, inputs.openPrs, inputs.created); Ran(w1, Again)
    case Ci => var (w1, o) :- CiTask(w, args, inputs.polls); Ran(w1, if o == Pause then Finished else Again)
    case MergedPhase => var (w1, _) :- CleanupTask(w, inputs.worktreeExists); Ran(w1, Again)
    case Done => Ran(w, Finished)
    case _ => Stopped(w)
  }

  function Rank(p: Phase): nat {
    match p case Review => 4 case ApprovedPhase => 3 case Ci => 2 case MergedPhase => 1 case _ => 0
  }

  function Budget(w: World, args: Args): nat {
    if w.state.rounds < args.maxRounds then args.maxRounds - w.state.rounds else 0
  }

  function Measure(w: World, args: Args): nat {
    5 * Budget(w, args) + Rank(w.state.phase)
  }

  // ---------------------------------------------------------------- what commands preserve

  /** Only the outside world moved, and only as it may. */
  ghost predicate Keeps(w: World, w': World) {
    && w'.state == w.state && w'.launches == w.launches && w'.merges == w.merges && w'.gates == w.gates && w'.reviews == w.reviews
    && (w.repo.head in w.repo.commits ==> w'.repo.head in w'.repo.commits)
    && Grows(w.repo, w'.repo)
  }

  ghost predicate Grows(r: Repo, r': Repo) {
    && (forall s :: s in r.commits ==> s in r'.commits && r'.commits[s] == r.commits[s])
    && (forall n :: n in r.prs && r.prs[n].state == Merged ==> n in r'.prs && r'.prs[n] == r.prs[n])
  }

  lemma {:induction false} HappenGrows(r: Repo, events: seq<Event>)
    ensures Grows(r, HappenAll(r, events))
    ensures r.head in r.commits ==> HappenAll(r, events).head in HappenAll(r, events).commits
    decreases |events|
  {
    if events != [] {
      HappenOneGrows(r, events[0]);
      HappenGrows(Happen(r, events[0]), events[1..]);
    }
  }

  lemma HappenOneGrows(r: Repo, e: Event)
    ensures Grows(r, Happen(r, e))
    ensures r.head in r.commits ==> Happen(r, e).head in Happen(r, e).commits
  {
  }

  lemma CommandKeeps(w: World)
    ensures Keeps(w, Command(w).world)
  {
    if w.moves != [] && w.moves[0].Go? {
      HappenGrows(w.repo, w.moves[0].before);
    }
  }

  lemma KeepsTransitive(a: World, b: World, c: World)
    requires Keeps(a, b) && Keeps(b, c)
    ensures Keeps(a, c)
  {
  }

  lemma ReadsKeep(w: World)
    ensures Keeps(w, Clean(w).world) && Keeps(w, Identity(w).world) && Keeps(w, ViewPr(w).world)
  {
    CommandKeeps(w);
  }

  /** Apart from the entry a passed gate leaves. */
  lemma GateKeeps(w: World)
    ensures var e := Gate(w);
            Keeps(w, e.world.(gates := w.gates))
            && (e.Stopped? ==> e.world.gates == w.gates)
            && (e.Ran? ==> exists raced :: e.world.gates == w.gates + [Passed(w.state.reviewed, w.state.approvedHead, raced)])
  {
    CommandKeeps(w);
    if Command(w).Ran? {
      var w1 := Command(w).world;
      TwoCommandsKeep(w1);
      KeepsTransitive(w, w1, Command(w1).world);
      KeepsTransitive(w, w1, Command(Command(w1).world).world);
    }
  }

  lemma TwoCommandsKeep(w: World)
    ensures Keeps(w, Command(w).world) && Keeps(w, Command(Command(w).world).world)
  {
    CommandKeeps(w);
    CommandKeeps(Command(w).world);
    KeepsTransitive(w, Command(w).world, Command(Command(w).world).world);
  }

  // ---------------------------------------------------------------- safety

  /** `a` is the reviewed commit plus its approving report, and nothing else. */
  ghost predicate Reviewed(commits: map<Sha, Tree>, r: Sha, a: Sha) {
    && r in commits && a in commits
    && REPORT in commits[a] && Approves(commits[a][REPORT], r)
    && ChangedPaths(commits[r], commits[a]) == {REPORT}
  }

  ghost predicate MergedAt(prs: map<nat, PullRequest>, n: nat, head: Sha) {
    n in prs && prs[n] == PullRequest(Merged, head, BRANCH, "main", false)
  }

  /** How often a gate passed for a pair. */
  function Count(gates: seq<Passed>, reviewed: Sha, approvedHead: Sha): nat {
    if gates == [] then 0
    else
      var g := gates[|gates| - 1];
      Count(gates[..|gates| - 1], reviewed, approvedHead)
      + (if g.reviewed == reviewed && g.approvedHead == approvedHead then 1 else 0)
  }

  /** A gate for the pair passed and was not raced. */
  ghost predicate Vouched(gates: seq<Passed>, reviewed: Sha, approvedHead: Sha) {
    Passed(reviewed, approvedHead, false) in gates
  }

  /** A review of this commit was accepted whose report approves it. */
  ghost predicate Endorsed(reviews: seq<Given>, head: Sha) {
    exists g :: g in reviews && g.head == head && Approves(g.report, head)
  }

  /** Whatever a gate vouched for is reviewed, and stays so: commits do not change. */
  ghost predicate GatesSafe(repo: Repo, gates: seq<Passed>) {
    forall g :: g in gates && !g.raced ==> Reviewed(repo.commits, g.reviewed, g.approvedHead)
  }

  /** Behind each guarded phase stand an approving review of its commit and passed gates for its pair,
      and behind a finished one a pull request merged at the approved head. */
  ghost predicate StateSafe(repo: Repo, st: State, gates: seq<Passed>, reviews: seq<Given>) {
    && (st.phase in {ApprovedPhase, Ci, MergedPhase, Done} ==> Endorsed(reviews, st.reviewed))
    && (st.phase == Ci ==> Count(gates, st.reviewed, st.approvedHead) >= 1)
    && (st.phase in {MergedPhase, Done} ==>
          Count(gates, st.reviewed, st.approvedHead) >= 2 && MergedAt(repo.prs, st.pr, st.approvedHead))
  }

  /** Every merge command was for an approved commit and named a head for which three gates had passed,
      with all its checks passing. */
  ghost predicate MergesSafe(merges: seq<MergeCommand>, gates: seq<Passed>, reviews: seq<Given>) {
    forall m :: m in merges ==>
      Endorsed(reviews, m.reviewed) && Count(gates, m.reviewed, m.head) >= 3 && AllGreen(m.checks, m.required)
  }

  ghost predicate RoundsSafe(w: World, limit: nat) {
    && w.launches <= w.state.rounds <= limit
    && (w.state.phase == Unstarted ==> w.launches == 0)
  }

  ghost predicate Safe(w: World, limit: nat) {
    && w.repo.head in w.repo.commits && RoundsSafe(w, limit)
    && GatesSafe(w.repo, w.gates) && StateSafe(w.repo, w.state, w.gates, w.reviews)
    && MergesSafe(w.merges, w.gates, w.reviews)
  }

  /** A review approved the commit the state names, and at least `k` gates passed for its pair. */
  ghost predicate Gated(w: World, k: nat) {
    Endorsed(w.reviews, w.state.reviewed) && Count(w.gates, w.state.reviewed, w.state.approvedHead) >= k
  }

  lemma CountSnoc(gates: seq<Passed>, g: Passed, reviewed: Sha, approvedHead: Sha)
    ensures Count(gates + [g], reviewed, approvedHead)
         == Count(gates, reviewed, approvedHead) + (if g.reviewed == reviewed && g.approvedHead == approvedHead then 1 else 0)
  {
    assert (gates + [g])[..|gates|] == gates;
  }

  lemma KeepsSafe(w: World, w': World, limit: nat)
    requires Safe(w, limit) && Keeps(w, w')
    ensures Safe(w', limit)
  {
  }

  lemma PassedSafe(w: World, g: Passed, limit: nat)
    requires Safe(w, limit) && (!g.raced ==> Reviewed(w.repo.commits, g.reviewed, g.approvedHead))
    ensures Safe(w.(gates := w.gates + [g]), limit)
  {
    CountSnoc(w.gates, g, w.state.reviewed, w.state.approvedHead);
    forall m | m in w.merges ensures Count(w.gates + [g], m.reviewed, m.head) >= 3 {
      CountSnoc(w.gates, g, m.reviewed, m.head);
    }
  }

  lemma SaveSafe(w: World, st: State, limit: nat)
    requires Safe(w, limit) && Safe(w.(state := st), limit)
    ensures Safe(Save(w, st).world, limit)
  {
    CommandKeeps(w);
    KeepsSafe(w, Command(w).world, limit);
    KeepsSafe(w.(state := st), Command(w).world.(state := st), limit);
  }

  lemma ReadsSafe(w: World, limit: nat)
    requires Safe(w, limit)
    ensures Safe(Command(w).world, limit) && Safe(Clean(w).world, limit) && Safe(Identity(w).world, limit)
    ensures Safe(ViewPr(w).world, limit)
  {
    CommandKeeps(w);
    KeepsSafe(w, Command(w).world, limit);
    ReadsKeep(w);
    KeepsSafe(w, ViewPr(w).world, limit);
  }

  /** Three reads of a checkout that stood still establish what one look at it would. */
  lemma ReadsEstablish(first: Repo, second: Repo, third: Repo, st: State)
    requires Grows(first, second) && Grows(second, third) && !Moved(first, second, third)
    requires first.head == st.approvedHead && ReportApproves(second, st) && OnlyReportChanged(third, st)
    ensures Reviewed(third.commits, st.reviewed, st.approvedHead)
  {
    VerdictApprovedExactly(ReportText(second).value, st.reviewed);
  }

  /** A gate that passes has found the approved head to be the reviewed commit and its approving
      report, unless HEAD moved between its reads or the report was not the committed one. */
  lemma GateEstablishes(w: World)
    requires Gate(w).Ran?
    ensures var w' := Gate(w).world;
            w'.gates != [] &&
            (var g := w'.gates[|w'.gates| - 1];
             w'.gates == w.gates + [g] && g.reviewed == w'.state.reviewed && g.approvedHead == w'.state.approvedHead
             && (!g.raced ==> Reviewed(w'.repo.commits, g.reviewed, g.approvedHead)))
  {
    var w1 := Command(w).world;
    var w3 := Command(w1).world;
    var w5 := Command(w3).world;
    CommandKeeps(w1);
    CommandKeeps(w3);
    if !Moved(w1.repo, w3.repo, w5.repo) {
      ReadsEstablish(w1.repo, w3.repo, w5.repo, w.state);
    }
  }

  lemma GateSafe(w: World, limit: nat, k: nat)
    requires Safe(w, limit) && Gated(w, k)
    ensures Safe(Gate(w).world, limit) && Gate(w).world.state == w.state
    ensures Gate(w).Ran? ==> Gated(Gate(w).world, k + 1)
  {
    GateKeeps(w);
    var e := Gate(w);
    KeepsSafe(w, e.world.(gates := w.gates), limit);
    if e.Ran? {
      GateEstablishes(w);
      var g := e.world.gates[|e.world.gates| - 1];
      PassedSafe(e.world.(gates := w.gates), g, limit);
      CountSnoc(w.gates, g, w.state.reviewed, w.state.approvedHead);
    }
  }

  /** Events that leave HEAD and the checkout alone. */
  predicate Still(events: seq<Event>) {
    forall e :: e in events ==> !e.MoveHead? && !e.Edit?
  }

  lemma {:induction false} StillKeepsCheckout(r: Repo, events: seq<Event>)
    requires Still(events)
    ensures HappenAll(r, events).head == r.head && HappenAll(r, events).clean == r.clean
    decreases |events|
  {
    if events != [] {
      assert events[0] in events && forall e :: e in events[1..] ==> e in events;
      StillKeepsCheckout(Happen(r, events[0]), events[1..]);
    }
  }

  /** A gate is not raced when nobody touches the checkout between its first and its last read. */
  lemma StillGate(w: World)
    requires Gate(w).Ran? && |w.moves| >= 3
    requires (w.moves[1].Go? ==> Still(w.moves[1].before)) && (w.moves[2].Go? ==> Still(w.moves[2].before))
    ensures Gate(w).world.gates == w.gates + [Passed(w.state.reviewed, w.state.approvedHead, false)]
  {
    var w1 := Command(w).world;
    var w3 := Command(w1).world;
    assert w1.moves == w.moves[1..] && w1.moves[0] == w.moves[1];
    assert w3.moves == w1.moves[1..] && w3.moves[0] == w.moves[2];
    StillKeepsCheckout(w1.repo, w.moves[1].before);
    StillKeepsCheckout(w3.repo, w.moves[2].before);
  }

  lemma CheckoutSafe(w: World, limit: nat)
    requires Safe(w, limit)
    ensures Safe(Checkout(w).world, limit) && Keeps(w, Checkout(w).world)
  {
    CheckoutKeeps(w);
    KeepsSafe(w, Checkout(w).world, limit);
  }

  /** A save that neither enters nor leaves the guarded phases with other data, and pays for no round. */
  lemma QuietSave(w: World, phase: Phase, limit: nat)
    requires Safe(w, limit) && phase !in {Unstarted, ApprovedPhase, Ci, MergedPhase, Done}
    ensures Safe(Save(w, w.state.(phase := phase)).world, limit)
  {
    SaveSafe(w, w.state.(phase := phase), limit);
  }

  lemma PrepareSafe(w: World, args: Args, limit: nat)
    requires Safe(w, limit)
    ensures Safe(PrepareTask(w, args).world, limit)
  {
    ReadsSafe(w, limit);
    if Clean(w).Ran? {
      var w1 := Clean(w).world;
      ReserveSafe(w1, args, limit);
      if Reserve(w1, args).Ran? {
        var w2 := Reserve(w1, args).world;
        CheckoutSafe(w2, limit);
        QuietSave(Checkout(w2).world, Implement, limit);
      }
    }
  }

  lemma ReserveSafe(w: World, args: Args, limit: nat)
    requires Safe(w, limit)
    ensures Safe(Reserve(w, args).world, limit)
  {
    if w.state.phase == Unstarted {
      SaveSafe(w, w.state.(phase := Preparing, rounds := 0, required := args.required), limit);
    }
  }

  lemma BeginAttemptSafe(w: World, args: Args, limit: nat)
    requires Safe(w, limit) && args.maxRounds <= limit
    ensures Safe(BeginAttempt(w, args).world, limit)
    ensures BeginAttempt(w, args).Ran? ==>
              var w' := BeginAttempt(w, args).world;
              w'.launches < w'.state.rounds && w'.state.phase == AgentRunning
              && w'.state.rounds == w.state.rounds + 1 <= args.maxRounds
  {
    CheckoutSafe(w, limit);
    if Checkout(w).Ran? {
      var w1, before := Checkout(w).world, Checkout(w).value;
      if w1.state.rounds + 1 <= args.maxRounds {
        SaveSafe(w1, w1.state.(phase := AgentRunning, rounds := w1.state.rounds + 1, before := before), limit);
        CommandKeeps(w1);
      }
    }
  }

  lemma RunAgentSafe(w: World, limit: nat)
    requires Safe(w, limit) && w.launches < w.state.rounds && w.state.phase == AgentRunning
    ensures Safe(RunAgent(w).world, limit)
  {
    ReadsSafe(w.(launches := w.launches + 1), limit);
  }

  lemma FinishAttemptSafe(w: World, before: Sha, limit: nat)
    requires Safe(w, limit)
    ensures Safe(FinishAttempt(w, before).world, limit)
  {
    CheckoutSafe(w, limit);
    QuietSave(Checkout(w).world, Review, limit);
  }

  lemma ImplementSafe(w: World, args: Args, limit: nat)
    requires Safe(w, limit) && args.maxRounds <= limit
    ensures Safe(ImplementTask(w, args).world, limit)
  {
    BeginAttemptSafe(w, args, limit);
    if BeginAttempt(w, args).Ran? {
      var w1, before := BeginAttempt(w, args).world, BeginAttempt(w, args).value;
      RunAgentSafe(w1, limit);
      FinishAttemptSafe(RunAgent(w1).world, before, limit);
    }
  }

  lemma CheckoutKeeps(w: World)
    ensures Keeps(w, Checkout(w).world)
  {
    ReadsKeep(w);
    if Clean(w).Ran? {
      ReadsKeep(Clean(w).world);
      KeepsTransitive(w, Clean(w).world, Checkout(w).world);
    }
  }

  lemma CommandThenCheckoutKeeps(w: World)
    ensures Keeps(w, CommandThenCheckout(w).world)
  {
    CommandKeeps(w);
    if Command(w).Ran? {
      CheckoutKeeps(Command(w).world);
      KeepsTransitive(w, Command(w).world, CommandThenCheckout(w).world);
    }
  }

  lemma AskReviewerKeeps(w: World)
    ensures Keeps(w, AskReviewer(w).world)
  {
    CheckoutKeeps(w);
    if Checkout(w).Ran? {
      CommandThenCheckoutKeeps(Checkout(w).world);
      KeepsTransitive(w, Checkout(w).world, CommandThenCheckout(Checkout(w).world).world);
    }
  }

  lemma ReadChecksKeep(w: World, poll: Poll)
    ensures Keeps(w, ReadChecks(w, poll).world)
  {
    ReadsKeep(w);
    if ViewPr(w).Ran? {
      CommandKeeps(ViewPr(w).world);
      KeepsTransitive(w, ViewPr(w).world, Command(ViewPr(w).world).world);
    }
  }

  lemma CommitReportSafe(w: World, output: Text, sha: Sha, limit: nat)
    requires Safe(w, limit)
    ensures Safe(CommitReport(w, output, sha).world, limit)
  {
    ReadsSafe(w, limit);
    var w1 := Command(w).world;
    if CommitReport(w, output, sha).Ran? {
      KeepsSafe(w1, CommitReport(w, output, sha).world, limit);
    }
  }

  lemma NotedSafe(w: World, head: Sha, report: Text, limit: nat)
    requires Safe(w, limit)
    ensures Safe(Noted(w, head, report), limit)
    ensures Approves(report, head) ==> Endorsed(Noted(w, head, report).reviews, head)
  {
    var w' := Noted(w, head, report);
    assert w'.reviews[|w.reviews|] == Given(head, report);
    forall h | Endorsed(w.reviews, h) ensures Endorsed(w'.reviews, h) {
    }
  }

  lemma RecordVerdictSafe(w: World, head: Sha, tip: Sha, verdict: Verdict, limit: nat)
    requires Safe(w, limit) && (verdict == Approved ==> Endorsed(w.reviews, head))
    ensures Safe(RecordVerdict(w, head, tip, verdict).world, limit)
  {
    var st := w.state.(phase := if verdict == Approved then ApprovedPhase else Fix,
                       reviewed := head,
                       approvedHead := if verdict == Approved then tip else "");
    SaveSafe(w, st, limit);
    if Save(w, st).Ran? {
      QuietSave(Save(w, st).world, BlockedPhase, limit);
    }
  }

  lemma ReviewSafe(w: World, output: Text, sha: Sha, limit: nat)
    requires Safe(w, limit)
    ensures Safe(ReviewTask(w, output, sha).world, limit)
  {
    AskReviewerKeeps(w);
    KeepsSafe(w, AskReviewer(w).world, limit);
    if AskReviewer(w).Ran? && ReviewVerdict(output, AskReviewer(w).value).Ok? {
      var w1, head := AskReviewer(w).world, AskReviewer(w).value;
      NotedSafe(w1, head, output, limit);
      VerdictApprovedExactly(output, head);
      AfterVerdictSafe(Noted(w1, head, output), head, ReviewVerdict(output, head).value, output, sha, limit);
    }
  }

  function AfterVerdict(w: World, head: Sha, verdict: Verdict, output: Text, sha: Sha): Exec<()> {
    var (w1, _) :- CommitReport(w, output, sha);
    var (w2, tip) :- Tip(w1, verdict);
    RecordVerdict(w2, head, tip, verdict)
  }

  lemma AfterVerdictSafe(w: World, head: Sha, verdict: Verdict, output: Text, sha: Sha, limit: nat)
    requires Safe(w, limit) && (verdict == Approved ==> Endorsed(w.reviews, head))
    ensures Safe(AfterVerdict(w, head, verdict, output, sha).world, limit)
  {
    CommitReportSafe(w, output, sha, limit);
    if CommitReport(w, output, sha).Ran? {
      var w1 := CommitReport(w, output, sha).world;
      ReadsSafe(w1, limit);
      if Tip(w1, verdict).Ran? {
        RecordVerdictSafe(Tip(w1, verdict).world, head, Tip(w1, verdict).value, verdict, limit);
      }
    }
  }

  lemma PublishSafe(w: World, openPrs: seq<nat>, created: nat, limit: nat)
    requires Safe(w, limit) && w.state.phase == ApprovedPhase
    ensures Safe(PublishTask(w, openPrs, created).world, limit)
  {
    GateSafe(w, limit, 0);
    if Gate(w).Ran? {
      OpenPrSafe(Gate(w).world, openPrs, created, limit);
    }
  }

  /** Pushes and new pull requests leave commits and merged pull requests alone. */
  lemma PushKeeps(w: World)
    ensures Keeps(w, PushBranch(w).world)
  {
    CommandKeeps(w);
    if Command(w).Ran? {
      var w1 := Command(w).world;
      assert Keeps(w1, w1.(repo := Pushed(w1.repo)));
      KeepsTransitive(w, w1, PushBranch(w).world);
    }
  }

  lemma CreateKeeps(w: World, created: nat)
    ensures Keeps(w, CreatePr(w, created).world)
  {
    CommandKeeps(w);
    if Command(w).Ran? {
      var w1 := Command(w).world;
      assert Keeps(w1, w1.(repo := Opened(w1.repo, created)));
      KeepsTransitive(w, w1, CreatePr(w, created).world);
    }
  }

  lemma OpenPrSafe(w: World, openPrs: seq<nat>, created: nat, limit: nat)
    requires Safe(w, limit) && Gated(w, 1)
    ensures Safe(OpenPr(w, openPrs, created).world, limit)
  {
    PushKeeps(w);
    KeepsSafe(w, PushBranch(w).world, limit);
    if PushBranch(w).Ran? {
      var w1 := PushBranch(w).world;
      CommandKeeps(w1);
      KeepsSafe(w1, Command(w1).world, limit);
      ListedSafe(Command(w1).world, openPrs, created, limit);
    }
  }

  lemma ListedSafe(w: World, openPrs: seq<nat>, created: nat, limit: nat)
    requires Safe(w, limit) && Gated(w, 1)
    ensures var e := if openPrs == [] then CreatePr(w, created) else Ran(w, ());
            Safe(e.world, limit)
            && (|openPrs| <= 1 ==>
                  Safe(Save(e.world, e.world.state.(phase := Ci, pr := if openPrs == [] then created else openPrs[0])).world, limit))
  {
    CreateKeeps(w, created);
    KeepsSafe(w, CreatePr(w, created).world, limit);
    if |openPrs| <= 1 {
      var w1 := if openPrs == [] then CreatePr(w, created).world else w;
      SaveSafe(w1, w1.state.(phase := Ci, pr := if openPrs == [] then created else openPrs[0]), limit);
    }
  }

  lemma ViewedMerged(w: World)
    requires ViewPr(w).Ran? && ViewPr(w).value.state == Merged
    ensures var w' := ViewPr(w).world; MergedAt(w'.repo.prs, w'.state.pr, w'.state.approvedHead)
  {
  }

  lemma RecordMergeSafe(w: World, limit: nat)
    requires Safe(w, limit) && Gated(w, 2)
    requires MergedAt(w.repo.prs, w.state.pr, w.state.approvedHead)
    ensures Safe(Save(w, w.state.(phase := MergedPhase)).world, limit)
  {
    SaveSafe(w, w.state.(phase := MergedPhase), limit);
  }

  lemma MergePrSafe(w: World, checks: seq<Check>, required: set<string>, limit: nat)
    requires Safe(w, limit) && Gated(w, 3)
    requires AllGreen(checks, required)
    ensures var w' := MergePr(w, w.state.approvedHead, checks, required).world;
            Safe(w', limit) && w'.state == w.state && w'.gates == w.gates
  {
    CommandKeeps(w);
    var w1 := Command(w).world;
    KeepsSafe(w, w1, limit);
    if Command(w).Ran? {
      var w2 := w1.(merges := w1.merges + [MergeCommand(w1.state.reviewed, w.state.approvedHead, checks, required)]);
      assert Safe(w2, limit);
    }
  }

  lemma MergeGreenSafe(w: World, args: Args, checks: seq<Check>, limit: nat)
    requires Safe(w, limit) && Gated(w, 2) && AllGreen(checks, w.state.required + args.required)
    ensures Safe(MergeGreen(w, args, checks).world, limit)
  {
    GateSafe(w, limit, 2);
    if Gate(w).Ran? {
      AfterGateSafe(Gate(w).world, args, checks, limit);
    }
  }

  function AfterGate(w: World, args: Args, checks: seq<Check>): Exec<CiOutcome> {
    var (w1, _) :- ViewPr(w);
    if args.autoMerge then ConfirmMerge(w1, args, checks) else Ran(w1, Pause)
  }

  lemma AfterGateSafe(w: World, args: Args, checks: seq<Check>, limit: nat)
    requires Safe(w, limit) && Gated(w, 3)
    requires AllGreen(checks, w.state.required + args.required)
    ensures Safe(AfterGate(w, args, checks).world, limit)
  {
    ReadsSafe(w, limit);
    ReadsKeep(w);
    if ViewPr(w).Ran? && args.autoMerge {
      ConfirmMergeSafe(ViewPr(w).world, args, checks, limit);
    }
  }

  lemma ConfirmMergeSafe(w: World, args: Args, checks: seq<Check>, limit: nat)
    requires Safe(w, limit) && Gated(w, 3)
    requires AllGreen(checks, w.state.required + args.required)
    ensures Safe(ConfirmMerge(w, args, checks).world, limit)
  {
    MergePrSafe(w, checks, w.state.required + args.required, limit);
    var e := MergePr(w, w.state.approvedHead, checks, w.state.required + args.required);
    if e.Ran? {
      ReadsSafe(e.world, limit);
      ReadsKeep(e.world);
      if ViewPr(e.world).Ran? && ViewPr(e.world).value.state == Merged {
        ViewedMerged(e.world);
        RecordMergeSafe(ViewPr(e.world).world, limit);
      }
    }
  }

  /** A failed check sends the task back; a poll that lacks a required name or holds a pending check
      decides nothing; only a green one goes on to the merge. */
  lemma PollDecides(w: World, args: Args, checks: seq<Check>)
    ensures (exists c :: c in checks && c.bucket == Fail) ==>
              var e := Save(w, w.state.(phase := Fix));
              DecidePoll(w, args, checks) == if e.Stopped? then Stopped(e.world) else Ran(e.world, Some(Continue))
    ensures Waiting(checks, w.state.required + args.required) ==> DecidePoll(w, args, checks) == Ran(w, None)
    ensures AllGreen(checks, w.state.required + args.required) ==>
              var e := MergeGreen(w, args, checks);
              DecidePoll(w, args, checks) == if e.Stopped? then Stopped(e.world) else Ran(e.world, Some(e.value))
  {
    ChecksPassIff(checks, w.state.required + args.required);
  }

  lemma DecidePollSafe(w: World, args: Args, checks: seq<Check>, limit: nat)
    requires Safe(w, limit) && Gated(w, 2)
    ensures Safe(DecidePoll(w, args, checks).world, limit)
  {
    QuietSave(w, Fix, limit);
    ChecksPassIff(checks, w.state.required + args.required);
    if AllGreen(checks, w.state.required + args.required) {
      MergeGreenSafe(w, args, checks, limit);
    }
  }

  lemma PollOnceSafe(w: World, args: Args, poll: Poll, limit: nat)
    requires Safe(w, limit) && Gated(w, 2)
    ensures Safe(PollOnce(w, args, poll).world, limit)
    ensures PollOnce(w, args, poll).Ran? && PollOnce(w, args, poll).value == None ==> Gated(PollOnce(w, args, poll).world, 2)
  {
    ReadChecksKeep(w, poll);
    KeepsSafe(w, ReadChecks(w, poll).world, limit);
    DecidePollSafe(ReadChecks(w, poll).world, args, poll.checks, limit);
  }

  lemma {:induction false} PollChecksSafe(w: World, args: Args, polls: seq<Poll>, limit: nat)
    requires Safe(w, limit) && Gated(w, 2)
    ensures Safe(PollChecks(w, args, polls).world, limit)
    decreases |polls|
  {
    if polls != [] {
      PollOnceSafe(w, args, polls[0], limit);
      if PollOnce(w, args, polls[0]).Ran? && PollOnce(w, args, polls[0]).value == None {
        PollChecksSafe(PollOnce(w, args, polls[0]).world, args, polls[1..], limit);
      }
    }
  }

  lemma CiSafe(w: World, args: Args, polls: seq<Poll>, limit: nat)
    requires Safe(w, limit) && w.state.phase == Ci
    ensures Safe(CiTask(w, args, polls).world, limit)
  {
    GateSafe(w, limit, 1);
    if Gate(w).Ran? {
      var w1 := Gate(w).world;
      ReadsSafe(w1, limit);
      ReadsKeep(w1);
      if ViewPr(w1).Ran? {
        var w2 := ViewPr(w1).world;
        if ViewPr(w1).value.state == Merged {
          ViewedMerged(w1);
          RecordMergeSafe(w2, limit);
        } else {
          PollChecksSafe(w2, args, polls, limit);
        }
      }
    }
  }

  lemma CleanupSafe(w: World, worktreeExists: bool, limit: nat)
    requires Safe(w, limit) && w.state.phase == MergedPhase
    ensures Safe(CleanupTask(w, worktreeExists).world, limit)
  {
    ReadsSafe(w, limit);
    ReadsKeep(w);
    if ViewPr(w).Ran? {
      RemoveWorktreeSafe(ViewPr(w).world, worktreeExists, limit);
    }
  }

  lemma RemoveWorktreeSafe(w: World, worktreeExists: bool, limit: nat)
    requires Safe(w, limit) && w.state.phase == MergedPhase
    ensures Safe(RemoveWorktree(w, worktreeExists).world, limit)
  {
    ReadsSafe(w, limit);
    ReadsKeep(w);
    if Clean(w).Ran? {
      var w1 := Clean(w).world;
      ReadsSafe(w1, limit);
      ReadsKeep(w1);
      var e := if worktreeExists then Gate(w1) else Ran(w1, ());
      if worktreeExists {
        GateSafe(w1, limit, 0);
      }
      if e.Ran? {
        FinishRemovalSafe(e.world, limit);
      }
    }
  }

  lemma DeleteKeeps(w: World)
    ensures Keeps(w, DeleteRemote(w).world)
  {
    CommandKeeps(w);
    if Command(w).Ran? {
      DeleteBranchKeeps(Command(w).world);
      KeepsTransitive(w, Command(w).world, DeleteRemote(w).world);
    }
  }

  lemma DeleteBranchKeeps(w: World)
    ensures Keeps(w, DeleteBranch(w).world)
  {
    CommandKeeps(w);
    if w.repo.remote == Some(w.state.approvedHead) && Command(w).Ran? {
      var w1 := Command(w).world;
      assert Keeps(w1, w1.(repo := w1.repo.(remote := None)));
      KeepsTransitive(w, w1, DeleteBranch(w).world);
    }
  }

  lemma FinishRemovalSafe(w: World, limit: nat)
    requires Safe(w, limit) && w.state.phase == MergedPhase
    ensures Safe(FinishRemoval(w).world, limit)
  {
    CommandKeeps(w);
    var w1 := Command(w).world;
    KeepsSafe(w, w1, limit);
    if Command(w).Ran? {
      DeleteKeeps(w1);
      var w2 := DeleteRemote(w1).world;
      KeepsSafe(w1, w2, limit);
      CommandKeeps(w2);
      var w3 := Command(w2).world;
      KeepsSafe(w2, w3, limit);
      SaveSafe(w3, w3.state.(phase := Done), limit);
    }
  }

  // ---------------------------------------------------------------- what cleanup deletes

  /** Nobody else moves the task branch on the host. */
  predicate BranchStill(moves: seq<Move>) {
    forall i :: 0 <= i < |moves| && moves[i].Go? ==> forall e :: e in moves[i].before ==> !e.MoveBranch?
  }

  ghost predicate SameBranch(w: World, w': World) {
    w'.repo.remote == w.repo.remote && BranchStill(w'.moves) && w'.state == w.state
  }

  lemma {:induction false} StillKeepsBranch(r: Repo, events: seq<Event>)
    requires forall e :: e in events ==> !e.MoveBranch?
    ensures HappenAll(r, events).remote == r.remote
    decreases |events|
  {
    if events != [] {
      assert events[0] in events && forall e :: e in events[1..] ==> e in events;
      StillKeepsBranch(Happen(r, events[0]), events[1..]);
    }
  }

  lemma CommandSameBranch(w: World)
    requires BranchStill(w.moves)
    ensures SameBranch(w, Command(w).world)
  {
    if w.moves != [] && w.moves[0].Go? {
      StillKeepsBranch(w.repo, w.moves[0].before);
    }
  }

  lemma GateSameBranch(w: World)
    requires BranchStill(w.moves)
    ensures SameBranch(w, Gate(w).world)
  {
    CommandSameBranch(w);
    var w1 := Command(w).world;
    CommandSameBranch(w1);
    CommandSameBranch(Command(w1).world);
  }

  /** Whatever fails in it, cleanup leaves the branch on the host alone unless it is at the approved
      head, and then it at most deletes it: later commits are kept, and the task is not done. */
  lemma CleanupSparesLaterCommits(w: World, worktreeExists: bool)
    requires BranchStill(w.moves)
    ensures var e := CleanupTask(w, worktreeExists);
            (e.world.repo.remote == w.repo.remote
             || (w.repo.remote == Some(w.state.approvedHead) && e.world.repo.remote == None))
            && (e.Ran? ==> e.world.repo.remote == None)
  {
    CommandSameBranch(w);
    if ViewPr(w).Ran? {
      var w1 := ViewPr(w).world;
      CommandSameBranch(w1);
      if Clean(w1).Ran? {
        var w2 := Clean(w1).world;
        GateSameBranch(w2);
        RemovalSparesLater(if worktreeExists then Gate(w2).world else w2);
      }
    }
  }

  lemma RemovalSparesLater(w: World)
    requires BranchStill(w.moves)
    ensures var e := FinishRemoval(w);
            (e.world.repo.remote == w.repo.remote
             || (w.repo.remote == Some(w.state.approvedHead) && e.world.repo.remote == None))
            && (e.Ran? ==> e.world.repo.remote == None)
  {
    CommandSameBranch(w);
    var w1 := Command(w).world;
    DeleteSpares(w1);
    var w2 := DeleteRemote(w1).world;
    CommandSameBranch(w2);
    CommandSameBranch(Command(w2).world);
  }

  lemma DeleteSpares(w: World)
    requires BranchStill(w.moves)
    ensures var e := DeleteRemote(w);
            BranchStill(e.world.moves) && e.world.state == w.state
            && (e.world.repo.remote == w.repo.remote
                || (w.repo.remote == Some(w.state.approvedHead) && e.world.repo.remote == None))
            && (e.Ran? ==> e.world.repo.remote == None)
  {
    CommandSameBranch(w);
    CommandSameBranch(Command(w).world);
  }

  lemma StartSafe(w: World, args: Args, limit: nat)
    requires Safe(w, limit)
    ensures Safe(Start(w, args).world, limit)
  {
    ReviewAgainSafe(w, limit);
    var e := if args.reviewAgain then ReviewAgain(w) else Ran(w, ());
    if e.Ran? {
      PrepareSafe(e.world, args, limit);
    }
  }

  lemma ReviewAgainSafe(w: World, limit: nat)
    requires Safe(w, limit)
    ensures Safe(ReviewAgain(w).world, limit)
  {
    CheckoutSafe(w, limit);
    QuietSave(Checkout(w).world, Review, limit);
  }

  lemma PhaseSafe(w: World, args: Args, inputs: Inputs, limit: nat)
    requires Safe(w, limit) && args.maxRounds <= limit
    ensures Safe(RunPhase(w, args, inputs).world, limit)
  {
    match w.state.phase
    case Implement => ImplementSafe(w, args, limit);
    case Fix => ImplementSafe(w, args, limit);
    case Review => ReviewSafe(w, inputs.output, inputs.sha, limit);
    case ApprovedPhase => PublishSafe(w, inputs.openPrs, inputs.created, limit);
    case Ci => CiSafe(w, args, inputs.polls, limit);
    case MergedPhase => CleanupSafe(w, inputs.worktreeExists, limit);
    case _ =>
  }

  // ---------------------------------------------------------------- termination

  /** The phase and the round counter are all an iteration changes that the measure looks at. */
  lemma ReadsKeepState(w: World)
    ensures Command(w).world.state == w.state && Clean(w).world.state == w.state && Identity(w).world.state == w.state
    ensures Checkout(w).world.state == w.state && Gate(w).world.state == w.state && ViewPr(w).world.state == w.state
  {
  }

  lemma SaveSets(w: World, st: State)
    ensures Save(w, st).Ran? ==> Save(w, st).world.state == st
  {
  }

  lemma RecordVerdictMoves(w: World, head: Sha, tip: Sha, verdict: Verdict)
    ensures var e := RecordVerdict(w, head, tip, verdict);
            e.Ran? ==> e.world.state.rounds == w.state.rounds && e.world.state.phase in {ApprovedPhase, Fix}
  {
  }

  lemma CommitReportKeepsState(w: World, output: Text, sha: Sha)
    ensures CommitReport(w, output, sha).world.state == w.state
  {
    ReadsKeepState(w);
  }

  lemma ReviewMoves(w: World, output: Text, sha: Sha)
    ensures var e := ReviewTask(w, output, sha);
            e.Ran? ==> e.world.state.rounds == w.state.rounds && e.world.state.phase in {ApprovedPhase, Fix}
  {
    AskReviewerKeeps(w);
    var e := AskReviewer(w);
    if e.Ran? && ReviewVerdict(output, e.value).Ok? {
      var w1 := Noted(e.world, e.value, output);
      CommitReportKeepsState(w1, output, sha);
      var c := CommitReport(w1, output, sha);
      if c.Ran? {
        ReadsKeepState(c.world);
        var verdict := ReviewVerdict(output, e.value).value;
        if Tip(c.world, verdict).Ran? {
          RecordVerdictMoves(Tip(c.world, verdict).world, e.value, Tip(c.world, verdict).value, verdict);
        }
      }
    }
  }

  lemma {:induction false} PollChecksMoves(w: World, args: Args, polls: seq<Poll>)
    requires w.state.phase == Ci
    ensures var e := PollChecks(w, args, polls);
            e.Ran? && e.value == Continue ==> e.world.state.rounds == w.state.rounds && e.world.state.phase in {MergedPhase, Fix}
    decreases |polls|
  {
    if polls != [] {
      ReadChecksKeep(w, polls[0]);
      var w1 := ReadChecks(w, polls[0]).world;
      DecidePollMoves(w1, args, polls[0].checks);
      if PollOnce(w, args, polls[0]).Ran? && PollOnce(w, args, polls[0]).value == None {
        PollChecksMoves(PollOnce(w, args, polls[0]).world, args, polls[1..]);
      }
    }
  }

  lemma MergeGreenMoves(w: World, args: Args, checks: seq<Check>)
    ensures var e := MergeGreen(w, args, checks);
            e.Ran? && e.value == Continue ==> e.world.state == w.state.(phase := MergedPhase)
  {
    ReadsKeepState(w);
    if Gate(w).Ran? {
      ReadsKeepState(Gate(w).world);
      if ViewPr(Gate(w).world).Ran? {
        ConfirmMergeMoves(ViewPr(Gate(w).world).world, args, checks);
      }
    }
  }

  lemma DecidePollMoves(w: World, args: Args, checks: seq<Check>)
    ensures var e := DecidePoll(w, args, checks);
            && (e.Ran? && e.value == None ==> e.world.state == w.state)
            && (e.Ran? && e.value == Some(Continue) ==>
                  e.world.state.rounds == w.state.rounds && e.world.state.phase in {MergedPhase, Fix})
  {
    MergeGreenMoves(w, args, checks);
    SaveSets(w, w.state.(phase := Fix));
  }

  lemma ConfirmMergeMoves(w: World, args: Args, checks: seq<Check>)
    ensures var e := ConfirmMerge(w, args, checks);
            e.Ran? ==> e.world.state == w.state.(phase := MergedPhase)
  {
  }

  lemma OpenPrMoves(w: World, openPrs: seq<nat>, created: nat)
    ensures var e := OpenPr(w, openPrs, created);
            e.Ran? ==> e.world.state.rounds == w.state.rounds && e.world.state.phase == Ci
  {
  }

  lemma PublishMoves(w: World, openPrs: seq<nat>, created: nat)
    ensures var e := PublishTask(w, openPrs, created);
            e.Ran? ==> e.world.state.rounds == w.state.rounds && e.world.state.phase == Ci
  {
    ReadsKeepState(w);
    if Gate(w).Ran? {
      OpenPrMoves(Gate(w).world, openPrs, created);
    }
  }

  lemma BeginAttemptMoves(w: World, args: Args)
    ensures var e := BeginAttempt(w, args);
            e.Ran? ==> e.world.state.rounds == w.state.rounds + 1 <= args.maxRounds
  {
    ReadsKeepState(w);
  }

  lemma FinishAttemptMoves(w: World, before: Sha)
    ensures var e := FinishAttempt(w, before);
            e.Ran? ==> e.world.state == w.state.(phase := Review)
  {
    ReadsKeepState(w);
  }

  lemma ImplementMoves(w: World, args: Args)
    ensures var e := ImplementTask(w, args);
            e.Ran? ==> e.world.state.rounds == w.state.rounds + 1 <= args.maxRounds && e.world.state.phase == Review
  {
    BeginAttemptMoves(w, args);
    var e := BeginAttempt(w, args);
    if e.Ran? && RunAgent(e.world).Ran? {
      ReadsKeepState(e.world.(launches := e.world.launches + 1));
      FinishAttemptMoves(RunAgent(e.world).world, e.value);
    }
  }

  lemma CleanupMoves(w: World, worktreeExists: bool)
    ensures var e := CleanupTask(w, worktreeExists);
            e.Ran? ==> e.world.state == w.state.(phase := Done)
  {
    ReadsKeepState(w);
    RemoveWorktreeMoves(ViewPr(w).world, worktreeExists);
  }

  lemma RemoveWorktreeMoves(w: World, worktreeExists: bool)
    ensures var e := RemoveWorktree(w, worktreeExists);
            e.Ran? ==> e.world.state == w.state.(phase := Done)
  {
    ReadsKeepState(w);
    if Clean(w).Ran? {
      var w1 := Clean(w).world;
      ReadsKeepState(w1);
      FinishRemovalMoves(if worktreeExists then Gate(w1).world else w1);
    }
  }

  lemma FinishRemovalMoves(w: World)
    ensures FinishRemoval(w).Ran? ==> FinishRemoval(w).world.state == w.state.(phase := Done)
  {
    ReadsKeepState(w);
    DeleteKeeps(Command(w).world);
    ReadsKeepState(DeleteRemote(Command(w).world).world);
  }

  lemma CiMoves(w: World, args: Args, polls: seq<Poll>)
    requires w.state.phase == Ci
    ensures var e := CiTask(w, args, polls);
            e.Ran? && e.value == Continue ==> e.world.state.rounds == w.state.rounds && e.world.state.phase in {MergedPhase, Fix}
  {
    ReadsKeepState(w);
    if Gate(w).Ran? {
      var w1 := Gate(w).world;
      ReadsKeepState(w1);
      if ViewPr(w1).Ran? {
        var w2 := ViewPr(w1).world;
        SaveSets(w2, w2.state.(phase := MergedPhase));
        PollChecksMoves(w2, args, polls);
      }
    }
  }

  /** The allowed transitions of one iteration that goes round again. */
  ghost predicate Moves(st: State, st': State, args: Args) {
    match st.phase
    case Implement => st'.phase == Review && st'.rounds == st.rounds + 1 <= args.maxRounds
    case Fix => st'.phase == Review && st'.rounds == st.rounds + 1 <= args.maxRounds
    case Review => st'.phase in {ApprovedPhase, Fix} && st'.rounds == st.rounds
    case ApprovedPhase => st'.phase == Ci && st'.rounds == st.rounds
    case Ci => st'.phase in {MergedPhase, Fix} && st'.rounds == st.rounds
    case MergedPhase => st'.phase == Done && st'.rounds == st.rounds
    case _ => false
  }

  lemma PhaseMoves(w: World, args: Args, inputs: Inputs)
    ensures var e := RunPhase(w, args, inputs);
            e.Ran? && e.value == Again ==> Moves(w.state, e.world.state, args)
  {
    match w.state.phase
    case Implement => ImplementMoves(w, args);
    case Fix => ImplementMoves(w, args);
    case Review => ReviewMoves(w, inputs.output, inputs.sha);
    case ApprovedPhase => PublishMoves(w, inputs.openPrs, inputs.created);
    case Ci => CiMoves(w, args, inputs.polls);
    case MergedPhase => CleanupMoves(w, inputs.worktreeExists);
    case _ =>
  }

  /** Every iteration that goes round again lowers (remaining rounds, phase rank). */
  lemma PhaseDecreases(w: World, args: Args, inputs: Inputs)
    ensures var e := RunPhase(w, args, inputs);
            e.Ran? && e.value == Again ==> Measure(e.world, args) < Measure(w, args)
  {
    PhaseMoves(w, args, inputs);
  }

  /** `execute()`'s loop. There is no fuel: the measure shows that it ends. */
  function Loop(w: World, args: Args, inputs: nat -> Inputs, i: nat): World
    decreases Measure(w, args)
  {
    PhaseDecreases(w, args, inputs(i));
    match RunPhase(w, args, inputs(i))
    case Stopped(w1) => w1
    case Ran(w1, next) => if next == Again then Loop(w1, args, inputs, i + 1) else w1
  }

  function Execute(w: World, args: Args, inputs: nat -> Inputs): World {
    match Start(w, args)
    case Stopped(w1) => w1
    case Ran(w1, _) => Loop(w1, args, inputs, 0)
  }

  /** The number of iterations of that loop. */
  function Iterations(w: World, args: Args, inputs: nat -> Inputs, i: nat): nat
    decreases Measure(w, args)
  {
    PhaseDecreases(w, args, inputs(i));
    match RunPhase(w, args, inputs(i))
    case Stopped(w1) => 1
    case Ran(w1, next) => if next == Again then 1 + Iterations(w1, args, inputs, i + 1) else 1
  }

  /** Iterations are linear in the round budget. */
  lemma {:induction false} LinearIterations(w: World, args: Args, inputs: nat -> Inputs, i: nat)
    ensures Iterations(w, args, inputs, i) <= 5 * Budget(w, args) + Rank(w.state.phase) + 1 <= 5 * args.maxRounds + 5
    decreases Measure(w, args)
  {
    PhaseDecreases(w, args, inputs(i));
    match RunPhase(w, args, inputs(i))
    case Stopped(w1) =>
    case Ran(w1, next) =>
      if next == Again { LinearIterations(w1, args, inputs, i + 1); }
  }

  // ---------------------------------------------------------------- whole histories

  /** One invocation of the script: its options, what the world will do to it, what its partners say. */
  datatype Invocation = Invocation(args: Args, moves: seq<Move>, inputs: nat -> Inputs)

  function Invoke(w: World, inv: Invocation): World {
    Execute(w.(moves := inv.moves), inv.args, inv.inputs)
  }

  function History(w: World, invs: seq<Invocation>): World {
    if invs == [] then w else Invoke(History(w, invs[..|invs| - 1]), invs[|invs| - 1])
  }

  lemma {:induction false} LoopSafe(w: World, args: Args, inputs: nat -> Inputs, i: nat, limit: nat)
    requires Safe(w, limit) && args.maxRounds <= limit
    ensures Safe(Loop(w, args, inputs, i), limit)
    decreases Measure(w, args)
  {
    PhaseSafe(w, args, inputs(i), limit);
    PhaseDecreases(w, args, inputs(i));
    match RunPhase(w, args, inputs(i))
    case Stopped(w1) =>
    case Ran(w1, next) =>
      if next == Again { LoopSafe(w1, args, inputs, i + 1, limit); }
  }

  /** The main theorem, over every history of invocations, crashes and moves of the world with a
      bounded `max_rounds`. An approved, merged or finished task names a commit that an accepted
      review approved. A merged or finished one has its pull request merged at `approved_head`.
      Every merge command was for such a commit, after three passed gates for the pair it names and
      with all checks passing. What was merged is the reviewed commit plus its approving report as soon as one of
      the gates passed for that pair, in whatever invocation, was not raced. No more implementer
      runs were started than the rounds recorded, which stay within the budget. */
  lemma {:induction false} OnlyReviewedCodeMerged(w: World, invs: seq<Invocation>, limit: nat)
    requires Safe(w, limit) && forall i :: 0 <= i < |invs| ==> invs[i].args.maxRounds <= limit
    ensures Safe(History(w, invs), limit)
    ensures var w' := History(w, invs);
            w'.state.phase in {ApprovedPhase, Ci, MergedPhase, Done} ==> Endorsed(w'.reviews, w'.state.reviewed)
    ensures var w' := History(w, invs);
            w'.state.phase in {MergedPhase, Done} ==>
              MergedAt(w'.repo.prs, w'.state.pr, w'.state.approvedHead)
              && Count(w'.gates, w'.state.reviewed, w'.state.approvedHead) >= 2
              && (Vouched(w'.gates, w'.state.reviewed, w'.state.approvedHead) ==>
                    Reviewed(w'.repo.commits, w'.state.reviewed, w'.state.approvedHead))
    ensures var w' := History(w, invs);
            forall m :: m in w'.merges ==>
              Endorsed(w'.reviews, m.reviewed) && AllGreen(m.checks, m.required) && Count(w'.gates, m.reviewed, m.head) >= 3
              && (Vouched(w'.gates, m.reviewed, m.head) ==> Reviewed(w'.repo.commits, m.reviewed, m.head))
  {
    if invs != [] {
      var inv := invs[|invs| - 1];
      var w1 := History(w, invs[..|invs| - 1]).(moves := inv.moves);
      OnlyReviewedCodeMerged(w, invs[..|invs| - 1], limit);
      StartSafe(w1, inv.args, limit);
      if Start(w1, inv.args).Ran? {
        LoopSafe(Start(w1, inv.args).world, inv.args, inv.inputs, 0, limit);
      }
    }
  }

  /** The state of a task before its first invocation. */
  predicate Fresh(w: World) {
    w.repo.head in w.repo.commits && w.state.phase == Unstarted && w.state.rounds == w.launches == 0
    && w.merges == [] && w.gates == [] && w.reviews == []
  }

  lemma FreshTaskSafe(w: World, limit: nat)
    requires Fresh(w)
    ensures Safe(w, limit)
  {
  }

  /** A BLOCKED verdict is saved as `fix` first: once that save happens, the run ends in `blocked`
      exactly when the second save happens too, and otherwise leaves a task that the next
      invocation hands back to the implementer. */
  lemma BlockedOnlyAfterSecondSave(w: World, head: Sha, tip: Sha)
    requires w.moves != [] && w.moves[0].Go?
    ensures var e := RecordVerdict(w, head, tip, Blocked);
            && e.Stopped?
            && (e.world.state.phase == BlockedPhase <==> |w.moves| >= 2 && w.moves[1].Go?)
            && (e.world.state.phase != BlockedPhase ==> e.world.state.phase == Fix)
  {
  }
}
