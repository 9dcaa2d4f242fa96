/** What the workflow achieves when its partners cooperate. */
module WorkflowProgress {
  import opened Common
  import opened TaskWorkflow
  import opened WorkflowSafety

  // ---------------------------------------------------------------- a world that keeps its hands off

  /** A clean checkout in place, and a host that merges at once. */
  predicate Ready(r: Repo) {
    r.clean && r.settled && !r.queueing
  }

  /** Anything but moving HEAD, the checkout or the branch, using the report's commit id `sha`,
      touching pull request `n`, or changing how the host merges. */
  predicate Benign(e: Event, n: nat, sha: Sha) {
    match e
    case NewCommit(s, _) => s != sha
    case SetPr(m, _) => m != n
    case _ => false
  }

  predicate AllBenign(events: seq<Event>, n: nat, sha: Sha) {
    forall e :: e in events ==> Benign(e, n, sha)
  }

  /** The next `k` commands run, with nothing but benign events before them. */
  ghost predicate Calm(moves: seq<Move>, k: nat, n: nat, sha: Sha) {
    |moves| >= k && forall i :: 0 <= i < k ==> moves[i].Go? && AllBenign(moves[i].before, n, sha)
  }

  /** The same checkout, branch and pull request; commits may have been added. */
  ghost predicate Same(r: Repo, r': Repo, n: nat, sha: Sha) {
    && r'.head == r.head && r'.clean == r.clean && r'.settled == r.settled && r'.remote == r.remote && r'.queueing == r.queueing
    && (forall s :: s in r.commits ==> s in r'.commits && r'.commits[s] == r.commits[s])
    && (sha in r'.commits ==> sha in r.commits)
    && Lookup(r'.prs, n) == Lookup(r.prs, n)
  }

  /** `c` commands later nothing else has changed. */
  ghost predicate After(w: World, w': World, c: nat, n: nat, sha: Sha) {
    c <= |w.moves| && w'.moves == w.moves[c..] && w'.state == w.state && Same(w.repo, w'.repo, n, sha)
  }

  lemma AfterAfter(a: World, b: World, c: World, i: nat, j: nat, n: nat, sha: Sha)
    requires After(a, b, i, n, sha) && After(b, c, j, n, sha)
    ensures After(a, c, i + j, n, sha)
  {
    assert a.moves[i..][j..] == a.moves[i + j..];
  }

  lemma CalmRest(moves: seq<Move>, k: nat, c: nat, n: nat, sha: Sha)
    requires c <= k && Calm(moves, k, n, sha)
    ensures Calm(moves[c..], k - c, n, sha)
  {
  }

  lemma {:induction false} BenignSame(r: Repo, events: seq<Event>, n: nat, sha: Sha)
    requires AllBenign(events, n, sha)
    ensures Same(r, HappenAll(r, events), n, sha)
    decreases |events|
  {
    if events != [] {
      assert events[0] in events && forall e :: e in events[1..] ==> e in events;
      BenignSame(Happen(r, events[0]), events[1..], n, sha);
    }
  }

  lemma CommandCalm(w: World, n: nat, sha: Sha)
    requires Calm(w.moves, 1, n, sha)
    ensures Command(w).Ran? && After(w, Command(w).world, 1, n, sha)
  {
    BenignSame(w.repo, w.moves[0].before, n, sha);
  }

  lemma CheckoutCalm(w: World, n: nat, sha: Sha)
    requires Calm(w.moves, 2, n, sha) && Ready(w.repo)
    ensures Checkout(w).Ran? && Checkout(w).value == w.repo.head && After(w, Checkout(w).world, 2, n, sha)
  {
    CommandCalm(w, n, sha);
    var w1 := Command(w).world;
    CalmRest(w.moves, 2, 1, n, sha);
    CommandCalm(w1, n, sha);
    AfterAfter(w, w1, Command(w1).world, 1, 1, n, sha);
  }

  lemma SaveCalm(w: World, st: State, n: nat, sha: Sha)
    requires Calm(w.moves, 1, n, sha)
    ensures Save(w, st).Ran? && After(w, Save(w, st).world.(state := w.state), 1, n, sha) && Save(w, st).world.state == st
  {
    CommandCalm(w, n, sha);
  }

  /** One look at the checkout would find the approved head, reviewed. */
  ghost predicate Vetted(w: World) {
    Ready(w.repo) && w.repo.head == w.state.approvedHead
    && Reviewed(w.repo.commits, w.state.reviewed, w.state.approvedHead)
  }

  lemma VettedAfter(w: World, w': World, c: nat, n: nat, sha: Sha)
    requires Vetted(w) && After(w, w', c, n, sha)
    ensures Vetted(w') && ReportApproves(w'.repo, w'.state) && OnlyReportChanged(w'.repo, w'.state)
  {
    VerdictApprovedExactly(w'.repo.commits[w'.repo.head][REPORT], w'.state.reviewed);
  }

  lemma GateCalm(w: World, n: nat, sha: Sha)
    requires Calm(w.moves, 3, n, sha) && Vetted(w)
    ensures Gate(w).Ran? && After(w, Gate(w).world, 3, n, sha)
  {
    CommandCalm(w, n, sha);
    var w1 := Command(w).world;
    CalmRest(w.moves, 3, 1, n, sha);
    CommandCalm(w1, n, sha);
    var w2 := Command(w1).world;
    AfterAfter(w, w1, w2, 1, 1, n, sha);
    VettedAfter(w, w2, 2, n, sha);
    CalmRest(w.moves, 3, 2, n, sha);
    CommandCalm(w2, n, sha);
    var w3 := Command(w2).world;
    AfterAfter(w, w2, w3, 2, 1, n, sha);
    VettedAfter(w, w3, 3, n, sha);
  }

  /** Pull request `n` of the task, at the approved head. */
  ghost predicate OnHost(w: World, n: nat, state: PrState) {
    Lookup(w.repo.prs, n) == Some(PullRequest(state, w.state.approvedHead, BRANCH, "main", false))
  }

  lemma ViewPrCalm(w: World, n: nat, sha: Sha, state: PrState)
    requires Calm(w.moves, 1, n, sha) && w.state.pr == n && OnHost(w, n, state)
    ensures ViewPr(w).Ran? && ViewPr(w).value.state == state && After(w, ViewPr(w).world, 1, n, sha)
  {
    CommandCalm(w, n, sha);
  }

  // ---------------------------------------------------------------- preparation and implementation

  lemma PrepareCalm(w: World, args: Args, n: nat, sha: Sha)
    requires Calm(w.moves, 5, n, sha) && Ready(w.repo) && w.state.phase == Unstarted
    ensures var e := PrepareTask(w, args);
            e.Ran? && After(w, e.world.(state := w.state), 5, n, sha)
            && e.world.state == w.state.(phase := Implement, rounds := 0, required := args.required)
  {
    CommandCalm(w, n, sha);
    var w1 := Command(w).world;
    CalmRest(w.moves, 5, 1, n, sha);
    var st := w1.state.(phase := Preparing, rounds := 0, required := args.required);
    SaveCalm(w1, st, n, sha);
    var w2 := Save(w1, st).world;
    AfterAfter(w, w1, w2.(state := w.state), 1, 1, n, sha);
    CalmRest(w.moves, 5, 2, n, sha);
    CheckoutCalm(w2, n, sha);
    var w4 := Checkout(w2).world;
    AfterAfter(w, w2.(state := w.state), w4.(state := w.state), 2, 2, n, sha);
    CalmRest(w.moves, 5, 4, n, sha);
    SaveCalm(w4, w4.state.(phase := Implement), n, sha);
    AfterAfter(w, w4.(state := w.state), Save(w4, w4.state.(phase := Implement)).world.(state := w.state), 4, 1, n, sha);
  }

  /** The agent's run: it commits tree `t` as `a`, and leaves HEAD there. */
  ghost predicate Delivers(events: seq<Event>, a: Sha, t: Tree, n: nat, sha: Sha) {
    |events| >= 2 && events[0] == NewCommit(a, t) && events[|events| - 1] == MoveHead(a)
    && AllBenign(events[..|events| - 1], n, sha)
  }

  lemma {:induction false} HappenConcat(r: Repo, a: seq<Event>, b: seq<Event>)
    ensures HappenAll(r, a + b) == HappenAll(HappenAll(r, a), b)
    decreases |a|
  {
    if a == [] {
      assert a + b == b;
    } else {
      assert (a + b)[0] == a[0] && (a + b)[1..] == a[1..] + b;
      HappenConcat(Happen(r, a[0]), a[1..], b);
    }
  }

  lemma Delivered(r: Repo, events: seq<Event>, a: Sha, t: Tree, n: nat, sha: Sha)
    requires Delivers(events, a, t, n, sha) && a !in r.commits
    ensures var r' := HappenAll(r, events);
            r'.head == a && a in r'.commits && r'.commits[a] == t && Same(r, r'.(head := r.head), n, sha)
  {
    var work := events[..|events| - 1];
    assert events == work + [MoveHead(a)];
    HappenConcat(r, work, [MoveHead(a)]);
    BenignSame(r, work, n, sha);
    assert work[0] == NewCommit(a, t) && forall e :: e in work[1..] ==> e in work;
    BenignSame(Happen(r, work[0]), work[1..], n, sha);
    assert [MoveHead(a)][1..] == [];
  }

  /** After an attempt that delivered `a`: HEAD there, the rest as it was. */
  ghost predicate Attempted(w: World, w': World, a: Sha, t: Tree, c: nat, n: nat, sha: Sha) {
    After(w, w'.(state := w.state, repo := w'.repo.(head := w.repo.head)), c, n, sha)
    && w'.repo.head == a && a in w'.repo.commits && w'.repo.commits[a] == t
  }

  lemma BeginCalm(w: World, args: Args, n: nat, sha: Sha)
    requires Calm(w.moves, 3, n, sha) && Ready(w.repo) && w.state.rounds + 1 <= args.maxRounds
    ensures var e := BeginAttempt(w, args);
            e.Ran? && e.value == w.repo.head && After(w, e.world.(state := w.state), 3, n, sha)
            && e.world.state == w.state.(phase := AgentRunning, rounds := w.state.rounds + 1, before := w.repo.head)
  {
    CheckoutCalm(w, n, sha);
    var w2 := Checkout(w).world;
    CalmRest(w.moves, 3, 2, n, sha);
    var st := w2.state.(phase := AgentRunning, rounds := w2.state.rounds + 1, before := w.repo.head);
    SaveCalm(w2, st, n, sha);
    AfterAfter(w, w2, Save(w2, st).world.(state := w.state), 2, 1, n, sha);
  }

  lemma AgentCalm(w: World, a: Sha, t: Tree, n: nat, sha: Sha)
    requires w.moves != [] && w.moves[0].Go? && Delivers(w.moves[0].before, a, t, n, sha) && a !in w.repo.commits
    ensures RunAgent(w).Ran? && Attempted(w, RunAgent(w).world, a, t, 1, n, sha) && RunAgent(w).world.state == w.state
  {
    Delivered(w.repo, w.moves[0].before, a, t, n, sha);
  }

  lemma FinishCalm(w: World, before: Sha, n: nat, sha: Sha)
    requires Calm(w.moves, 3, n, sha) && Ready(w.repo) && w.repo.head != before
    ensures var e := FinishAttempt(w, before);
            e.Ran? && After(w, e.world.(state := w.state), 3, n, sha) && e.world.state == w.state.(phase := Review)
  {
    CheckoutCalm(w, n, sha);
    var w2 := Checkout(w).world;
    CalmRest(w.moves, 3, 2, n, sha);
    SaveCalm(w2, w2.state.(phase := Review), n, sha);
    AfterAfter(w, w2, Save(w2, w2.state.(phase := Review)).world.(state := w.state), 2, 1, n, sha);
  }

  /** The moves of an attempt: three benign ones before which nobody else makes commit `a`, the
      agent's, three benign ones. */
  ghost predicate AttemptMoves(moves: seq<Move>, a: Sha, t: Tree, n: nat, sha: Sha) {
    Calm(moves, 3, n, sha) && Calm(moves, 3, n, a)
    && |moves| >= 7 && moves[3].Go? && Delivers(moves[3].before, a, t, n, sha)
    && Calm(moves[4..], 3, n, sha)
  }

  lemma ImplementCalm(w: World, args: Args, a: Sha, t: Tree, n: nat, sha: Sha)
    requires AttemptMoves(w.moves, a, t, n, sha) && Ready(w.repo)
    requires w.state.rounds + 1 <= args.maxRounds && w.repo.head in w.repo.commits && a !in w.repo.commits
    ensures var e := ImplementTask(w, args);
            e.Ran? && Attempted(w, e.world, a, t, 7, n, sha)
            && e.world.state == w.state.(phase := Review, rounds := w.state.rounds + 1, before := w.repo.head)
  {
    BeginCalm(w, args, n, sha);
    BeginCalm(w, args, n, a);
    var w3 := BeginAttempt(w, args).world;
    assert w3.moves[0] == w.moves[3];
    AgentCalm(w3, a, t, n, sha);
    var w4 := RunAgent(w3).world;
    assert w4.moves == w.moves[3..][1..] == w.moves[4..];
    FinishCalm(w4, w.repo.head, n, sha);
    AttemptedRest(w, w3, w4, FinishAttempt(w4, w.repo.head).world, a, t, n, sha);
  }

  lemma AttemptedRest(w: World, w3: World, w4: World, w7: World, a: Sha, t: Tree, n: nat, sha: Sha)
    requires After(w, w3.(state := w.state), 3, n, sha) && Attempted(w3, w4, a, t, 1, n, sha)
    requires After(w4, w7.(state := w4.state), 3, n, sha)
    ensures Attempted(w, w7, a, t, 7, n, sha)
  {
    assert w.moves[3..][1..][3..] == w.moves[7..];
  }

  // ---------------------------------------------------------------- review

  lemma AskReviewerCalm(w: World, n: nat, sha: Sha)
    requires Calm(w.moves, 5, n, sha) && Ready(w.repo)
    ensures AskReviewer(w).Ran? && AskReviewer(w).value == w.repo.head && After(w, AskReviewer(w).world, 5, n, sha)
  {
    CheckoutCalm(w, n, sha);
    var w2 := Checkout(w).world;
    CalmRest(w.moves, 5, 2, n, sha);
    CommandCalm(w2, n, sha);
    var w3 := Command(w2).world;
    AfterAfter(w, w2, w3, 2, 1, n, sha);
    CalmRest(w.moves, 5, 3, n, sha);
    CheckoutCalm(w3, n, sha);
    AfterAfter(w, w3, Checkout(w3).world, 3, 2, n, sha);
  }

  /** The report committed on top of the reviewed head. */
  ghost predicate ReportOnTop(r: Repo, head: Sha, sha: Sha, output: Text) {
    head in r.commits && sha in r.commits && head != sha && r.commits[sha] == r.commits[head][REPORT := output]
  }

  lemma CommitCalm(w: World, output: Text, k: nat, n: nat, sha: Sha)
    requires Calm(w.moves, k + 1, n, sha) && w.repo.head in w.repo.commits && sha !in w.repo.commits
    ensures var e := CommitReport(w, output, sha);
            e.Ran? && Calm(e.world.moves, k, n, sha) && e.world.state == w.state
            && e.world.repo.head == sha && ReportOnTop(e.world.repo, w.repo.head, sha, output)
            && e.world.repo.commits[w.repo.head] == w.repo.commits[w.repo.head]
            && e.world.repo.clean == w.repo.clean && e.world.repo.settled == w.repo.settled && e.world.repo.queueing == w.repo.queueing
            && Lookup(e.world.repo.prs, n) == Lookup(w.repo.prs, n)
  {
    CommandCalm(w, n, sha);
    CalmRest(w.moves, k + 1, 1, n, sha);
  }

  /** An approving review. */
  ghost predicate ApprovingReview(w: World, output: Text, sha: Sha) {
    w.repo.head in w.repo.commits && sha !in w.repo.commits && Approves(output, w.repo.head)
    && Lookup(w.repo.commits[w.repo.head], REPORT) != Some(output)
  }

  /** An approving review is its parts in a row. */
  lemma ApprovedReview(w: World, output: Text, sha: Sha)
    requires AskReviewer(w).Ran? && Approves(output, AskReviewer(w).value)
    ensures var w1, head := AskReviewer(w).world, AskReviewer(w).value;
            ReviewTask(w, output, sha) == AfterVerdict(Noted(w1, head, output), head, Approved, output, sha)
  {
    VerdictApprovedExactly(output, AskReviewer(w).value);
  }

  lemma ReviewCalm(w: World, output: Text, k: nat, n: nat, sha: Sha)
    requires Calm(w.moves, k + 8, n, sha) && Ready(w.repo) && ApprovingReview(w, output, sha)
    ensures var e := ReviewTask(w, output, sha);
            e.Ran? && Calm(e.world.moves, k, n, sha) && Vetted(e.world)
            && e.world.state == w.state.(phase := ApprovedPhase, reviewed := w.repo.head, approvedHead := sha)
            && Lookup(e.world.repo.prs, n) == Lookup(w.repo.prs, n)
  {
    var head := w.repo.head;
    AskReviewerCalm(w, n, sha);
    var w5 := Noted(AskReviewer(w).world, head, output);
    CalmRest(w.moves, k + 8, 5, n, sha);
    assert w5.repo.commits[head] == w.repo.commits[head];
    CommitCalm(w5, output, k + 2, n, sha);
    RecordCalm(CommitReport(w5, output, sha).world, head, output, k, n, sha);
    ApprovedReview(w, output, sha);
  }

  lemma RecordCalm(w: World, head: Sha, output: Text, k: nat, n: nat, sha: Sha)
    requires Calm(w.moves, k + 2, n, sha) && Ready(w.repo) && w.repo.head == sha
    requires ReportOnTop(w.repo, head, sha, output) && Approves(output, head)
    requires Lookup(w.repo.commits[head], REPORT) != Some(output)
    ensures Identity(w).Ran? && Identity(w).value == sha
    ensures var e := RecordVerdict(Identity(w).world, head, sha, Approved);
            e.Ran? && Calm(e.world.moves, k, n, sha) && Vetted(e.world)
            && e.world.state == w.state.(phase := ApprovedPhase, reviewed := head, approvedHead := sha)
            && Lookup(e.world.repo.prs, n) == Lookup(w.repo.prs, n)
  {
    CommandCalm(w, n, sha);
    var w1 := Command(w).world;
    CalmRest(w.moves, k + 2, 1, n, sha);
    var st := w1.state.(phase := ApprovedPhase, reviewed := head, approvedHead := sha);
    SaveCalm(w1, st, n, sha);
    var w2 := Save(w1, st).world;
    AfterAfter(w, w1, w2.(state := w.state), 1, 1, n, sha);
    CalmRest(w.moves, k + 2, 2, n, sha);
    assert Reviewed(w2.repo.commits, head, sha);
  }

  // ---------------------------------------------------------------- publication

  /** The host lists the task's open pull request, wherever its head is, or lists none and gives the
      new one number `n`. */
  ghost predicate HostReady(w: World, ins: Inputs, n: nat) {
    if ins.openPrs == [] then ins.created == n && n !in w.repo.prs
    else ins.openPrs == [n] && n in w.repo.prs && FollowsBranch(w.repo.prs[n]) && w.repo.prs[n].baseRef == "main"
  }

  lemma PublishCalm(w: World, ins: Inputs, k: nat, n: nat, sha: Sha)
    requires Calm(w.moves, k + 7, n, sha) && Vetted(w) && HostReady(w, ins, n)
    ensures var e := PublishTask(w, ins.openPrs, ins.created);
            e.Ran? && Calm(e.world.moves, k, n, sha) && Vetted(e.world)
            && e.world.state == w.state.(phase := Ci, pr := n) && Standing(e.world, n, Open)
  {
    GateCalm(w, n, sha);
    var w3 := Gate(w).world;
    VettedAfter(w, w3, 3, n, sha);
    CalmRest(w.moves, k + 7, 3, n, sha);
    OpenPrCalm(w3, ins, k, n, sha);
  }

  lemma OpenPrCalm(w: World, ins: Inputs, k: nat, n: nat, sha: Sha)
    requires Calm(w.moves, k + 4, n, sha) && Vetted(w) && HostReady(w, ins, n)
    ensures var e := OpenPr(w, ins.openPrs, ins.created);
            e.Ran? && Calm(e.world.moves, k, n, sha) && Vetted(e.world)
            && e.world.state == w.state.(phase := Ci, pr := n) && Standing(e.world, n, Open)
  {
    PushListCalm(w, ins, k + 2, n, sha);
    ListedCalm(Command(PushBranch(w).world).world, ins, k, n, sha);
  }

  lemma PushListCalm(w: World, ins: Inputs, k: nat, n: nat, sha: Sha)
    requires Calm(w.moves, k + 2, n, sha) && Vetted(w) && HostReady(w, ins, n)
    ensures PushBranch(w).Ran? && Command(PushBranch(w).world).Ran?
    ensures var w' := Command(PushBranch(w).world).world;
            Calm(w'.moves, k, n, sha) && Vetted(w') && Listed(w', ins, n) && w'.state == w.state
  {
    PushCalm(w, ins, k + 1, n, sha);
    var w1 := PushBranch(w).world;
    CommandCalm(w1, n, sha);
    CalmRest(w1.moves, k + 1, 1, n, sha);
    VettedAfter(w1, Command(w1).world, 1, n, sha);
  }

  /** What the push leaves: the branch at HEAD, and an open pull request with it. */
  ghost predicate Listed(w: World, ins: Inputs, n: nat) {
    w.repo.remote == Some(w.state.approvedHead)
    && (if ins.openPrs == [] then ins.created == n && n !in w.repo.prs else ins.openPrs == [n] && OnHost(w, n, Open))
  }

  lemma PushCalm(w: World, ins: Inputs, k: nat, n: nat, sha: Sha)
    requires Calm(w.moves, k + 1, n, sha) && Vetted(w) && HostReady(w, ins, n)
    ensures PushBranch(w).Ran? && Vetted(PushBranch(w).world) && Listed(PushBranch(w).world, ins, n)
    ensures Calm(PushBranch(w).world.moves, k, n, sha) && PushBranch(w).world.state == w.state
  {
    CommandCalm(w, n, sha);
    VettedAfter(w, Command(w).world, 1, n, sha);
    CalmRest(w.moves, k + 1, 1, n, sha);
  }

  lemma ListedCalm(w: World, ins: Inputs, k: nat, n: nat, sha: Sha)
    requires Calm(w.moves, k + 2, n, sha) && Vetted(w) && Listed(w, ins, n)
    ensures var e := if ins.openPrs == [] then CreatePr(w, ins.created) else Ran(w, ());
            e.Ran?
            && (var f := Save(e.world, e.world.state.(phase := Ci, pr := n));
                f.Ran? && Calm(f.world.moves, k, n, sha) && Vetted(f.world)
                && f.world.state == w.state.(phase := Ci, pr := n) && Standing(f.world, n, Open))
  {
    if ins.openPrs == [] {
      CommandCalm(w, n, sha);
      VettedAfter(w, Command(w).world, 1, n, sha);
      var w1 := CreatePr(w, n).world;
      assert Vetted(w1) && OnHost(w1, n, Open);
      CalmRest(w.moves, k + 2, 1, n, sha);
      EnterCi(w1, k, n, sha);
    } else {
      EnterCi(w, k, n, sha);
    }
  }

  lemma EnterCi(w: World, k: nat, n: nat, sha: Sha)
    requires Calm(w.moves, k + 1, n, sha) && Vetted(w) && OnHost(w, n, Open) && w.repo.remote == Some(w.state.approvedHead)
    ensures var f := Save(w, w.state.(phase := Ci, pr := n));
            f.Ran? && Calm(f.world.moves, k, n, sha) && Vetted(f.world)
            && f.world.state == w.state.(phase := Ci, pr := n) && Standing(f.world, n, Open)
  {
    CommandCalm(w, n, sha);
    VettedAfter(w, Command(w).world, 1, n, sha);
    CalmRest(w.moves, k + 1, 1, n, sha);
  }

  // ---------------------------------------------------------------- checks and merge

  ghost predicate Landed(w: World, n: nat, state: PrState) {
    Vetted(w) && w.state.pr == n && OnHost(w, n, state)
  }

  /** The pull request and its branch stand at the approved head. */
  ghost predicate Standing(w: World, n: nat, state: PrState) {
    Landed(w, n, state) && w.repo.remote == Some(w.state.approvedHead)
  }

  lemma StandingAfter(w: World, w': World, c: nat, n: nat, sha: Sha, state: PrState)
    requires Standing(w, n, state) && After(w, w', c, n, sha)
    ensures Standing(w', n, state)
  {
    VettedAfter(w, w', c, n, sha);
  }

  /** Merged, and recorded as merged. */
  ghost predicate MergeRecorded(w: World, w': World, n: nat) {
    w'.state == w.state.(phase := MergedPhase) && Standing(w', n, Merged)
  }

  lemma ConfirmMergeCalm(w: World, args: Args, checks: seq<Check>, k: nat, n: nat, sha: Sha)
    requires Calm(w.moves, k + 3, n, sha) && Standing(w, n, Open)
    ensures var e := ConfirmMerge(w, args, checks);
            e.Ran? && e.value == Continue && Calm(e.world.moves, k, n, sha) && MergeRecorded(w, e.world, n)
  {
    CommandCalm(w, n, sha);
    StandingAfter(w, Command(w).world, 1, n, sha, Open);
    var w1 := MergePr(w, w.state.approvedHead, checks, w.state.required + args.required).world;
    assert w1.moves == w.moves[1..] && Standing(w1, n, Merged);
    CalmRest(w.moves, k + 3, 1, n, sha);
    ViewPrCalm(w1, n, sha, Merged);
    var w2 := ViewPr(w1).world;
    StandingAfter(w1, w2, 1, n, sha, Merged);
    CalmRest(w1.moves, k + 2, 1, n, sha);
    CommandCalm(w2, n, sha);
    StandingAfter(w2, Command(w2).world, 1, n, sha, Merged);
    CalmRest(w2.moves, k + 1, 1, n, sha);
  }

  lemma GateThenView(w: World, k: nat, n: nat, sha: Sha)
    requires Calm(w.moves, k + 4, n, sha) && Standing(w, n, Open)
    ensures Gate(w).Ran?
    ensures var e := ViewPr(Gate(w).world);
            e.Ran? && e.value.state == Open && e.world.state == w.state && Calm(e.world.moves, k, n, sha) && Standing(e.world, n, Open)
  {
    GateCalm(w, n, sha);
    var w3 := Gate(w).world;
    StandingAfter(w, w3, 3, n, sha, Open);
    CalmRest(w.moves, k + 4, 3, n, sha);
    ViewPrCalm(w3, n, sha, Open);
    StandingAfter(w3, ViewPr(w3).world, 1, n, sha, Open);
    CalmRest(w3.moves, k + 1, 1, n, sha);
  }

  lemma MergeGreenCalm(w: World, args: Args, checks: seq<Check>, k: nat, n: nat, sha: Sha)
    requires Calm(w.moves, k + 7, n, sha) && Standing(w, n, Open) && args.autoMerge
    ensures var e := MergeGreen(w, args, checks);
            e.Ran? && e.value == Continue && Calm(e.world.moves, k, n, sha) && MergeRecorded(w, e.world, n)
  {
    GateThenView(w, k + 3, n, sha);
    ConfirmMergeCalm(ViewPr(Gate(w).world).world, args, checks, k, n, sha);
  }

  ghost predicate Pending(poll: Poll, required: set<string>) {
    poll.total <= 100 && Waiting(poll.checks, required)
  }

  ghost predicate Green(poll: Poll, required: set<string>) {
    poll.total <= 100 && AllGreen(poll.checks, required)
  }

  /** Poll `g` is green, and those before it are pending. */
  ghost predicate GreenAt(polls: seq<Poll>, g: nat, required: set<string>) {
    g < |polls| && Green(polls[g], required) && forall i :: 0 <= i < g ==> Pending(polls[i], required)
  }

  lemma ReadChecksCalm(w: World, poll: Poll, n: nat, sha: Sha)
    requires Calm(w.moves, 2, n, sha) && Standing(w, n, Open) && poll.total <= 100
    ensures ReadChecks(w, poll).Ran? && After(w, ReadChecks(w, poll).world, 2, n, sha)
  {
    ViewPrCalm(w, n, sha, Open);
    var w1 := ViewPr(w).world;
    CalmRest(w.moves, 2, 1, n, sha);
    CommandCalm(w1, n, sha);
    AfterAfter(w, w1, Command(w1).world, 1, 1, n, sha);
  }

  lemma PendingCalm(w: World, args: Args, poll: Poll, k: nat, n: nat, sha: Sha)
    requires Calm(w.moves, k + 2, n, sha) && Standing(w, n, Open) && Pending(poll, w.state.required + args.required)
    ensures var e := PollOnce(w, args, poll);
            e.Ran? && e.value == None && Calm(e.world.moves, k, n, sha) && Standing(e.world, n, Open)
            && e.world.state == w.state
  {
    ReadChecksCalm(w, poll, n, sha);
    StandingAfter(w, ReadChecks(w, poll).world, 2, n, sha, Open);
    CalmRest(w.moves, k + 2, 2, n, sha);
    PollDecides(ReadChecks(w, poll).world, args, poll.checks);
  }

  lemma GreenCalm(w: World, args: Args, poll: Poll, k: nat, n: nat, sha: Sha)
    requires Calm(w.moves, k + 9, n, sha) && Standing(w, n, Open) && Green(poll, w.state.required + args.required)
    requires args.autoMerge
    ensures var e := PollOnce(w, args, poll);
            e.Ran? && e.value == Some(Continue) && Calm(e.world.moves, k, n, sha) && MergeRecorded(w, e.world, n)
  {
    ReadChecksCalm(w, poll, n, sha);
    var w2 := ReadChecks(w, poll).world;
    StandingAfter(w, w2, 2, n, sha, Open);
    CalmRest(w.moves, k + 9, 2, n, sha);
    MergeGreenCalm(w2, args, poll.checks, k, n, sha);
    PollDecides(w2, args, poll.checks);
  }

  lemma {:induction false} PollCalm(w: World, args: Args, polls: seq<Poll>, g: nat, k: nat, n: nat, sha: Sha)
    requires Calm(w.moves, k + 2 * g + 9, n, sha) && Standing(w, n, Open) && args.autoMerge
    requires GreenAt(polls, g, w.state.required + args.required)
    ensures var e := PollChecks(w, args, polls);
            e.Ran? && e.value == Continue && Calm(e.world.moves, k, n, sha) && MergeRecorded(w, e.world, n)
    decreases g
  {
    if g == 0 {
      GreenCalm(w, args, polls[0], k, n, sha);
    } else {
      PendingCalm(w, args, polls[0], k + 2 * (g - 1) + 9, n, sha);
      PollCalm(PollOnce(w, args, polls[0]).world, args, polls[1..], g - 1, k, n, sha);
    }
  }

  lemma CiCalm(w: World, args: Args, polls: seq<Poll>, g: nat, k: nat, n: nat, sha: Sha)
    requires Calm(w.moves, k + 2 * g + 13, n, sha) && Standing(w, n, Open) && args.autoMerge
    requires GreenAt(polls, g, w.state.required + args.required)
    ensures var e := CiTask(w, args, polls);
            e.Ran? && e.value == Continue && Calm(e.world.moves, k, n, sha) && MergeRecorded(w, e.world, n)
  {
    GateThenView(w, k + 2 * g + 9, n, sha);
    PollCalm(ViewPr(Gate(w).world).world, args, polls, g, k, n, sha);
  }

  lemma CleanupCalm(w: World, worktreeExists: bool, n: nat, sha: Sha)
    requires Calm(w.moves, 10, n, sha) && Standing(w, n, Merged)
    ensures var e := CleanupTask(w, worktreeExists);
            e.Ran? && e.world.state == w.state.(phase := Done) && Landed(e.world, n, Merged) && e.world.repo.remote == None
  {
    ViewPrCalm(w, n, sha, Merged);
    var w1 := ViewPr(w).world;
    StandingAfter(w, w1, 1, n, sha, Merged);
    CalmRest(w.moves, 10, 1, n, sha);
    CommandCalm(w1, n, sha);
    var w2 := Command(w1).world;
    StandingAfter(w1, w2, 1, n, sha, Merged);
    CalmRest(w1.moves, 9, 1, n, sha);
    GateCalm(w2, n, sha);
    StandingAfter(w2, Gate(w2).world, 3, n, sha, Merged);
    CalmRest(w2.moves, 8, 3, n, sha);
    FinishRemovalCalm(if worktreeExists then Gate(w2).world else w2, n, sha);
  }

  lemma FinishRemovalCalm(w: World, n: nat, sha: Sha)
    requires Calm(w.moves, 5, n, sha) && Standing(w, n, Merged)
    ensures var e := FinishRemoval(w);
            e.Ran? && e.world.state == w.state.(phase := Done) && Landed(e.world, n, Merged) && e.world.repo.remote == None
  {
    CommandCalm(w, n, sha);
    var w1 := Command(w).world;
    StandingAfter(w, w1, 1, n, sha, Merged);
    CalmRest(w.moves, 5, 1, n, sha);
    DeleteCalm(w1, n, sha);
    LastSaves(DeleteRemote(w1).world, n, sha);
  }

  lemma DeleteCalm(w: World, n: nat, sha: Sha)
    requires Calm(w.moves, 4, n, sha) && Standing(w, n, Merged)
    ensures var e := DeleteRemote(w);
            e.Ran? && Calm(e.world.moves, 2, n, sha) && e.world.state == w.state && Landed(e.world, n, Merged)
            && e.world.repo.remote == None
  {
    CommandCalm(w, n, sha);
    var w1 := Command(w).world;
    StandingAfter(w, w1, 1, n, sha, Merged);
    CalmRest(w.moves, 4, 1, n, sha);
    CommandCalm(w1, n, sha);
    StandingAfter(w1, Command(w1).world, 1, n, sha, Merged);
    CalmRest(w1.moves, 3, 1, n, sha);
  }

  lemma LastSaves(w: World, n: nat, sha: Sha)
    requires Calm(w.moves, 2, n, sha) && Landed(w, n, Merged) && w.repo.remote == None
    ensures Command(w).Ran?
    ensures var e := Save(Command(w).world, Command(w).world.state.(phase := Done));
            e.Ran? && e.world.state == w.state.(phase := Done) && Landed(e.world, n, Merged) && e.world.repo.remote == None
  {
    CommandCalm(w, n, sha);
    var w1 := Command(w).world;
    VettedAfter(w, w1, 1, n, sha);
    CalmRest(w.moves, 2, 1, n, sha);
    CommandCalm(w1, n, sha);
    VettedAfter(w1, Command(w1).world, 1, n, sha);
  }

  // ---------------------------------------------------------------- from a fresh task to done

  lemma LoopStep(w: World, w1: World, args: Args, inputs: nat -> Inputs, i: nat)
    requires RunPhase(w, args, inputs(i)) == Ran(w1, Again)
    ensures Loop(w, args, inputs, i) == Loop(w1, args, inputs, i + 1)
  {
    PhaseDecreases(w, args, inputs(i));
  }

  /** Done, with pull request `n` merged at the approved head, which is reviewed, and its branch gone. */
  ghost predicate Completed(w: World, n: nat, head: Sha, sha: Sha) {
    w.state.phase == Done && w.state.reviewed == head && w.state.approvedHead == sha && Landed(w, n, Merged)
    && w.repo.remote == None
  }

  lemma MergedTaskFinishes(w: World, args: Args, inputs: nat -> Inputs, i: nat, n: nat, sha: Sha)
    requires Calm(w.moves, 10, n, sha) && Standing(w, n, Merged) && w.state.phase == MergedPhase
    ensures Completed(Loop(w, args, inputs, i), n, w.state.reviewed, w.state.approvedHead)
  {
    CleanupCalm(w, inputs(i).worktreeExists, n, sha);
    var w1 := CleanupTask(w, inputs(i).worktreeExists).world;
    LoopStep(w, w1, args, inputs, i);
    LoopDone(w1, args, inputs, i + 1);
  }

  lemma LoopDone(w: World, args: Args, inputs: nat -> Inputs, i: nat)
    requires w.state.phase == Done
    ensures Loop(w, args, inputs, i) == w
  {
  }

  lemma GreenTaskFinishes(w: World, args: Args, inputs: nat -> Inputs, i: nat, g: nat, n: nat, sha: Sha)
    requires Calm(w.moves, 2 * g + 23, n, sha) && Standing(w, n, Open) && w.state.phase == Ci && args.autoMerge
    requires GreenAt(inputs(i).polls, g, w.state.required + args.required)
    ensures Completed(Loop(w, args, inputs, i), n, w.state.reviewed, w.state.approvedHead)
  {
    CiCalm(w, args, inputs(i).polls, g, 10, n, sha);
    var w1 := CiTask(w, args, inputs(i).polls).world;
    LoopStep(w, w1, args, inputs, i);
    MergedTaskFinishes(w1, args, inputs, i + 1, n, sha);
  }

  lemma ApprovedTaskFinishes(w: World, args: Args, inputs: nat -> Inputs, i: nat, g: nat, n: nat, sha: Sha)
    requires Calm(w.moves, 2 * g + 30, n, sha) && Vetted(w) && w.state.phase == ApprovedPhase && args.autoMerge
    requires HostReady(w, inputs(i), n) && GreenAt(inputs(i + 1).polls, g, w.state.required + args.required)
    ensures Completed(Loop(w, args, inputs, i), n, w.state.reviewed, w.state.approvedHead)
  {
    PublishCalm(w, inputs(i), 2 * g + 23, n, sha);
    var w1 := PublishTask(w, inputs(i).openPrs, inputs(i).created).world;
    LoopStep(w, w1, args, inputs, i);
    GreenTaskFinishes(w1, args, inputs, i + 1, g, n, sha);
  }

  lemma ReviewedTaskFinishes(w: World, args: Args, inputs: nat -> Inputs, i: nat, g: nat, n: nat, sha: Sha)
    requires Calm(w.moves, 2 * g + 38, n, sha) && Ready(w.repo) && w.state.phase == Review && args.autoMerge
    requires inputs(i).sha == sha && ApprovingReview(w, inputs(i).output, sha)
    requires HostReady(w, inputs(i + 1), n) && GreenAt(inputs(i + 2).polls, g, w.state.required + args.required)
    ensures Completed(Loop(w, args, inputs, i), n, w.repo.head, sha)
  {
    ReviewCalm(w, inputs(i).output, 2 * g + 30, n, sha);
    var w1 := ReviewTask(w, inputs(i).output, sha).world;
    LoopStep(w, w1, args, inputs, i);
    ApprovedTaskFinishes(w1, args, inputs, i + 1, g, n, sha);
  }

  /** The agent commits `t` as `a`, and the review approves it in a report that becomes `sha`. */
  ghost predicate Reviewable(w: World, inputs: nat -> Inputs, a: Sha, t: Tree, n: nat) {
    var sha := inputs(1).sha;
    && a !in w.repo.commits && sha !in w.repo.commits
    && Approves(inputs(1).output, a) && Lookup(t, REPORT) != Some(inputs(1).output)
    && Calm(w.moves, 5, n, sha) && Calm(w.moves, 5, n, a) && AttemptMoves(w.moves[5..], a, t, n, sha)
  }

  /** What the partners of one invocation contribute: agent and review as above, the host lists or
      opens pull request `n`, and poll `g` is the first that is not pending, and green. */
  ghost predicate Cooperative(w: World, args: Args, inputs: nat -> Inputs, a: Sha, t: Tree, g: nat, n: nat) {
    Reviewable(w, inputs, a, t, n)
    && HostReady(w, inputs(2), n) && GreenAt(inputs(3).polls, g, args.required)
    && Calm(w.moves[5..][7..], 2 * g + 38, n, inputs(1).sha)
  }

  /** Cooperative partners and a world that does nothing harmful between the commands: one
      invocation takes a fresh task to the end, and what was merged is what was reviewed. */
  lemma FreshTaskFinishes(w: World, args: Args, inputs: nat -> Inputs, a: Sha, t: Tree, g: nat, n: nat)
    requires Fresh(w) && Ready(w.repo)
    requires !args.reviewAgain && args.autoMerge && args.maxRounds >= 1
    requires Cooperative(w, args, inputs, a, t, g, n)
    ensures Completed(Execute(w, args, inputs), n, a, inputs(1).sha)
  {
    var w2 := FirstPhases(w, args, inputs, a, t, n);
    RestFinishes(w, w2, args, inputs, a, t, g, n);
  }

  lemma RestFinishes(w: World, w2: World, args: Args, inputs: nat -> Inputs, a: Sha, t: Tree, g: nat, n: nat)
    requires Cooperative(w, args, inputs, a, t, g, n) && AwaitsReview(w, w2, args, inputs, a, n) && args.autoMerge
    ensures Completed(Loop(w2, args, inputs, 1), n, a, inputs(1).sha)
  {
    assert args.required + args.required == args.required;
    ReviewedTaskFinishes(w2, args, inputs, 1, g, n, inputs(1).sha);
  }

  lemma ExecuteStarts(w: World, w1: World, args: Args, inputs: nat -> Inputs)
    requires w.state.phase == Unstarted && !args.reviewAgain && PrepareTask(w, args) == Ran(w1, ())
    ensures Execute(w, args, inputs) == Loop(w1, args, inputs, 0)
  {
  }

  /** `w2` is `w` with commit `a` made and waiting for its first review. */
  ghost predicate AwaitsReview(w: World, w2: World, args: Args, inputs: nat -> Inputs, a: Sha, n: nat) {
    |w.moves| >= 12 && w2.moves == w.moves[5..][7..] && Ready(w2.repo) && w2.repo.head == a
    && w2.state.phase == Review && w2.state.required == args.required
    && ApprovingReview(w2, inputs(1).output, inputs(1).sha)
    && Lookup(w2.repo.prs, n) == Lookup(w.repo.prs, n)
    && forall s :: s in w.repo.commits ==> s in w2.repo.commits && w2.repo.commits[s] == w.repo.commits[s]
  }

  lemma FirstPhases(w: World, args: Args, inputs: nat -> Inputs, a: Sha, t: Tree, n: nat) returns (w2: World)
    requires Fresh(w) && Ready(w.repo)
    requires !args.reviewAgain && args.maxRounds >= 1
    requires Reviewable(w, inputs, a, t, n) && |w.moves| >= 12
    ensures Execute(w, args, inputs) == Loop(w2, args, inputs, 1)
    ensures AwaitsReview(w, w2, args, inputs, a, n)
  {
    var sha := inputs(1).sha;
    PrepareCalm(w, args, n, sha);
    PrepareCalm(w, args, n, a);
    var w1 := PrepareTask(w, args).world;
    ExecuteStarts(w, w1, args, inputs);
    w2 := Implemented(w, w1, args, inputs, a, t, n);
  }

  lemma Implemented(w: World, w1: World, args: Args, inputs: nat -> Inputs, a: Sha, t: Tree, n: nat) returns (w2: World)
    requires After(w, w1.(state := w.state), 5, n, inputs(1).sha) && After(w, w1.(state := w.state), 5, n, a)
    requires w1.state == w.state.(phase := Implement, rounds := 0, required := args.required)
    requires Ready(w.repo) && w.repo.head in w.repo.commits && args.maxRounds >= 1
    requires Reviewable(w, inputs, a, t, n) && |w.moves| >= 12
    ensures Loop(w1, args, inputs, 0) == Loop(w2, args, inputs, 1)
    ensures AwaitsReview(w, w2, args, inputs, a, n)
  {
    ImplementCalm(w1, args, a, t, n, inputs(1).sha);
    w2 := ImplementTask(w1, args).world;
    LoopStep(w1, w2, args, inputs, 0);
  }
}
