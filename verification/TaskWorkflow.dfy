/** The one-task implement/review/publish/merge workflow as a persisted phase machine run against
    an adversarial checkout, reviewing agent and code host. */
module TaskWorkflow {
  import opened Common

  type Sha = string
  type Path = string

  // ---------------------------------------------------------------- review reports

  datatype Json = JString(s: string) | JInt(i: int) | JOther

  /** What `json.loads` makes of a `WORKFLOW_REVIEW:` line. */
  datatype Footer = Malformed | NotObject | Object(fields: map<string, Json>)

  datatype Line = Prose(text: string) | WorkflowReview(footer: Footer)

  type Text = seq<Line>

  datatype Verdict = Approved | ChangesRequired | Blocked

  datatype ReviewError = NotOneFooter | MalformedFooter | WrongHead | BadBlockers | UnknownVerdict | Contradictory

  function Footers(report: Text): seq<Footer> {
    if report == [] then []
    else (if report[0].WorkflowReview? then [report[0].footer] else []) + Footers(report[1..])
  }

  function VerdictOf(j: Option<Json>): Option<Verdict> {
    if j == Some(JString("APPROVED")) then Some(Approved)
    else if j == Some(JString("CHANGES REQUIRED")) then Some(ChangesRequired)
    else if j == Some(JString("BLOCKED")) then Some(Blocked)
    else None
  }

  function ReviewVerdict(report: Text, head: Sha): Result<Verdict, ReviewError> {
    var footers := Footers(report);
    if |footers| != 1 then Err(NotOneFooter)
    else
      match footers[0]
      case Malformed => Err(MalformedFooter)
      case NotObject => Err(WrongHead)
      case Object(fields) =>
        if Lookup(fields, "head") != Some(JString(head)) then Err(WrongHead)
        else
          var blockers, verdict := Lookup(fields, "blocking_findings"), VerdictOf(Lookup(fields, "verdict"));
          if !(blockers.Some? && blockers.value.JInt? && blockers.value.i >= 0) then Err(BadBlockers)
          else if verdict.None? then Err(UnknownVerdict)
          else if verdict == Some(Approved) && blockers.value.i != 0 then Err(Contradictory)
          else Ok(verdict.value)
  }

  /** Approval is exactly: one footer, naming this head, saying APPROVED with zero blockers. */
  ghost predicate Approves(report: Text, head: Sha) {
    exists i: nat :: SoleFooter(report, i) && ApprovingLine(report[i], head)
  }

  ghost predicate ApprovingLine(line: Line, head: Sha) {
    && line.WorkflowReview? && line.footer.Object?
    && Lookup(line.footer.fields, "head") == Some(JString(head))
    && Lookup(line.footer.fields, "verdict") == Some(JString("APPROVED"))
    && Lookup(line.footer.fields, "blocking_findings") == Some(JInt(0))
  }

  lemma {:induction false} NoFooters(report: Text)
    ensures Footers(report) == [] <==> forall j :: 0 <= j < |report| ==> report[j].Prose?
  {
    if report != [] {
      NoFooters(report[1..]);
      assert forall j :: 0 < j < |report| ==> report[j] == report[1..][j - 1];
    }
  }

  /** Line `i` is the only footer of the report. */
  ghost predicate SoleFooter(report: Text, i: nat) {
    i < |report| && report[i].WorkflowReview? && forall j :: 0 <= j < |report| && j != i ==> report[j].Prose?
  }

  lemma {:induction false} SoleFooterFound(report: Text, i: nat)
    requires SoleFooter(report, i)
    ensures Footers(report) == [report[i].footer]
  {
    var rest := report[1..];
    assert forall j :: 0 <= j < |rest| ==> rest[j] == report[j + 1];
    if i == 0 {
      NoFooters(rest);
    } else {
      assert SoleFooter(rest, i - 1);
      SoleFooterFound(rest, i - 1);
    }
  }

  lemma {:induction false} FoundFooterSole(report: Text) returns (i: nat)
    requires |Footers(report)| == 1
    ensures SoleFooter(report, i) && Footers(report) == [report[i].footer]
  {
    var rest := report[1..];
    assert forall j :: 0 < j < |report| ==> report[j] == rest[j - 1];
    if report[0].WorkflowReview? {
      NoFooters(rest);
      i := 0;
    } else {
      i := FoundFooterSole(rest);
      i := i + 1;
    }
  }

  lemma VerdictApprovedExactly(report: Text, head: Sha)
    ensures ReviewVerdict(report, head) == Ok(Approved) <==> Approves(report, head)
  {
    if ReviewVerdict(report, head) == Ok(Approved) {
      var i := FoundFooterSole(report);
      assert ApprovingLine(report[i], head);
    }
    if Approves(report, head) {
      var i: nat :| SoleFooter(report, i) && ApprovingLine(report[i], head);
      SoleFooterFound(report, i);
    }
  }

  /** The one footer names this head and gives this verdict and number of blocking findings. */
  ghost predicate Says(report: Text, head: Sha, verdict: string, blockers: nat) {
    exists i: nat :: SoleFooter(report, i) && SayingLine(report[i], head, verdict, blockers)
  }

  ghost predicate SayingLine(line: Line, head: Sha, verdict: string, blockers: nat) {
    && line.WorkflowReview? && line.footer.Object?
    && Lookup(line.footer.fields, "head") == Some(JString(head))
    && Lookup(line.footer.fields, "verdict") == Some(JString(verdict))
    && Lookup(line.footer.fields, "blocking_findings") == Some(JInt(blockers))
  }

  /** The two other verdicts; every report that gives none of the three is refused. */
  lemma VerdictExactly(report: Text, head: Sha)
    ensures ReviewVerdict(report, head) == Ok(ChangesRequired) <==> exists k: nat :: Says(report, head, "CHANGES REQUIRED", k)
    ensures ReviewVerdict(report, head) == Ok(Blocked) <==> exists k: nat :: Says(report, head, "BLOCKED", k)
  {
    if ReviewVerdict(report, head).Ok? {
      var i := FoundFooterSole(report);
      var fields := report[i].footer.fields;
      var k: nat := Lookup(fields, "blocking_findings").value.i;
      var said := match ReviewVerdict(report, head).value
                  case Approved => "APPROVED" case ChangesRequired => "CHANGES REQUIRED" case Blocked => "BLOCKED";
      assert SayingLine(report[i], head, said, k) && Says(report, head, said, k);
    }
    forall verdict, k: nat | Says(report, head, verdict, k)
      ensures verdict == "CHANGES REQUIRED" ==> ReviewVerdict(report, head) == Ok(ChangesRequired)
      ensures verdict == "BLOCKED" ==> ReviewVerdict(report, head) == Ok(Blocked)
    {
      var i: nat :| SoleFooter(report, i) && SayingLine(report[i], head, verdict, k);
      SoleFooterFound(report, i);
    }
  }

  // ---------------------------------------------------------------- CI checks

  datatype Bucket = Pass | Pending | Fail

  datatype Check = Check(name: string, bucket: Bucket)

  predicate ChecksPass(checks: seq<Check>, required: set<string>) {
    && checks != []
    && required <= (set c | c in checks :: c.name)
    && forall c :: c in checks ==> c.bucket == Pass
  }

  /** There are checks, all of them passed, and each required name is one of theirs. */
  ghost predicate AllGreen(checks: seq<Check>, required: set<string>) {
    && checks != []
    && (forall c :: c in checks ==> c.bucket == Pass)
    && (forall name :: name in required ==> Check(name, Pass) in checks)
  }

  /** Nothing failed, but a required name has not reported, some check is pending, or there is none. */
  ghost predicate Waiting(checks: seq<Check>, required: set<string>) {
    && (forall c :: c in checks ==> c.bucket != Fail)
    && (checks == [] || (exists c :: c in checks && c.bucket == Pending)
        || (exists name :: name in required && forall c :: c in checks ==> c.name != name))
  }

  lemma ChecksPassIff(checks: seq<Check>, required: set<string>)
    ensures ChecksPass(checks, required) <==> AllGreen(checks, required)
    ensures Waiting(checks, required) <==> !AllGreen(checks, required) && forall c :: c in checks ==> c.bucket != Fail
  {
    forall name | name in required && ChecksPass(checks, required) ensures Check(name, Pass) in checks {
      assert name in (set c | c in checks :: c.name);
      var c :| c in checks && c.name == name;
      assert c == Check(name, Pass);
    }
    if AllGreen(checks, required) {
      forall name | name in required ensures name in (set c | c in checks :: c.name) {
        assert Check(name, Pass) in checks;
      }
    }
  }

  // ---------------------------------------------------------------- the world outside

  type Tree = map<Path, Text>

  datatype PrState = Open | Merged | Closed

  datatype PullRequest = PullRequest(state: PrState, headOid: Sha, headRef: string, baseRef: string, cross: bool)

  /** The worktree, its object store and the code host, as one command sees them. `settled` says
      that branch, toplevel and origin are what they should be; `edited` is the text of the report
      file when a dirty checkout has another one than HEAD, and `remote` the task branch on the host,
      which while `queueing` accepts merge commands without merging. */
  datatype Repo = Repo(commits: map<Sha, Tree>, head: Sha, clean: bool, settled: bool, edited: Option<Text>,
                       remote: Option<Sha>, prs: map<nat, PullRequest>, queueing: bool)

  /** What people, agents and the code host do around the script. Nobody can rewrite a commit,
      leave HEAD dangling, or change a merged pull request. */
  datatype Event =
    | NewCommit(sha: Sha, tree: Tree)
    | MoveHead(sha: Sha)
    | Edit(clean: bool, settled: bool, report: Option<Text>)
    | SetPr(number: nat, pr: PullRequest)
    | MoveBranch(tip: Option<Sha>)
    | Queueing(on: bool)

  function Happen(r: Repo, e: Event): Repo {
    match e
    case NewCommit(s, t) => if s in r.commits then r else r.(commits := r.commits[s := t])
    case MoveHead(s) => if s in r.commits then r.(head := s) else r
    case Edit(c, t, report) => r.(clean := c, settled := t, edited := report)
    case MoveBranch(tip) => r.(remote := tip)
    case Queueing(on) => r.(queueing := on)
    case SetPr(n, pr) => if n in r.prs && r.prs[n].state == Merged then r else r.(prs := r.prs[n := pr])
  }

  function HappenAll(r: Repo, events: seq<Event>): Repo
    decreases |events|
  {
    if events == [] then r else HappenAll(Happen(r, events[0]), events[1..])
  }

  datatype Phase = Unstarted | Preparing | Implement | AgentRunning | Review | Fix | BlockedPhase
                 | ApprovedPhase | Ci | MergedPhase | Done

  /** `state.json`. */
  datatype State = State(phase: Phase, rounds: nat, before: Sha, reviewed: Sha, approvedHead: Sha, pr: nat,
                         required: set<string>)

  datatype Args = Args(maxRounds: nat, autoMerge: bool, reviewAgain: bool, required: set<string>)

  datatype MergeCommand = MergeCommand(reviewed: Sha, head: Sha, checks: seq<Check>, required: set<string>)

  /** A gate that passed, for the pair it was asked about; `raced` if what it read did not belong
      together. */
  datatype Passed = Passed(reviewed: Sha, approvedHead: Sha, raced: bool)

  /** A review that was accepted: of which commit, and the report. */
  datatype Given = Given(head: Sha, report: Text)

  /** Before each external command anything may have happened; then the command goes ahead, or
      the run dies there: an error exit, a timeout, a kill. */
  datatype Move = Go(before: seq<Event>) | Die

  datatype World = World(
    repo: Repo,
    moves: seq<Move>,
    state: State,
    launches: nat,                  // implementer runs started
    merges: seq<MergeCommand>,      // merge commands issued
    gates: seq<Passed>,             // gates passed
    reviews: seq<Given>)            // reviews accepted

  /** A command sequence that ran to its end, or stopped on the way. */
  datatype Exec<+T> = Ran(world: World, value: T) | Stopped(world: World) {
    predicate IsFailure() { Stopped? }
    function PropagateFailure<U>(): Exec<U> requires Stopped? { Stopped(world) }
    function Extract(): (World, T) requires Ran? { (world, value) }
  }

  const BRANCH := "feature/TASK"
  const REPORT := "docs/reviews/TASK-review.md"

  // ---------------------------------------------------------------- commands

  function Command(w: World): Exec<()> {
    if w.moves == [] then Stopped(w)
    else
      var rest := w.(moves := w.moves[1..]);
      match w.moves[0]
      case Die => Stopped(rest)
      case Go(events) => Ran(rest.(repo := HappenAll(w.repo, events)), ())
  }

  function Require(w: World, ok: bool): Exec<()> {
    if ok then Ran(w, ()) else Stopped(w)
  }

  /** The atomic replacement of `state.json`. */
  function Save(w: World, state: State): Exec<()> {
    var (w1, _) :- Command(w);
    Ran(w1.(state := state), ())
  }

  function Clean(w: World): Exec<()> {
    var (w1, _) :- Command(w);
    Require(w1, w1.repo.clean)
  }

  function Identity(w: World): Exec<Sha> {
    var (w1, _) :- Command(w);
    var (w2, _) :- Require(w1, w1.repo.settled);
    Ran(w2, w2.repo.head)
  }

  function ChangedPaths(a: Tree, b: Tree): set<Path> {
    set p | p in a.Keys + b.Keys && Lookup(a, p) != Lookup(b, p)
  }

  /** The report as the gate reads it, from the worktree. */
  function ReportText(r: Repo): Option<Text> {
    if !r.clean && r.edited.Some? then r.edited
    else if r.head in r.commits then Lookup(r.commits[r.head], REPORT)
    else None
  }

  predicate ReportApproves(r: Repo, st: State) {
    ReportText(r).Some? && ReviewVerdict(ReportText(r).value, st.reviewed) == Ok(Approved)
  }

  predicate OnlyReportChanged(r: Repo, st: State) {
    r.head in r.commits && st.reviewed in r.commits
    && ChangedPaths(r.commits[st.reviewed], r.commits[r.head]) == {REPORT}
  }

  /** HEAD moved between the reads of a gate, or the report it read was not the committed one. */
  predicate Moved(first: Repo, second: Repo, third: Repo) {
    first.head != second.head || second.head != third.head
    || second.head !in second.commits || ReportText(second) != Lookup(second.commits[second.head], REPORT)
  }

  /** `approved()`: HEAD, then the report, then the diff, each read by a command of its own, between
      which the world goes on. */
  function Gate(w: World): Exec<()> {
    var (w1, _) :- Command(w);
    var (w2, _) :- Require(w1, w1.repo.clean && w1.repo.settled && w1.repo.head == w1.state.approvedHead);
    var (w3, _) :- Command(w2);
    var (w4, _) :- Require(w3, ReportApproves(w3.repo, w3.state));
    var (w5, _) :- Command(w4);
    var (w6, _) :- Require(w5, OnlyReportChanged(w5.repo, w5.state));
    Ran(w6.(gates := w6.gates + [Passed(w6.state.reviewed, w6.state.approvedHead, Moved(w1.repo, w3.repo, w5.repo))]), ())
  }

  predicate PrMatches(pr: PullRequest, st: State) {
    pr.headOid == st.approvedHead && pr.headRef == BRANCH && pr.baseRef == "main" && !pr.cross
  }

  function ViewPr(w: World): Exec<PullRequest> {
    var (w1, _) :- Command(w);
    var (w2, _) :- Require(w1, w1.state.pr in w1.repo.prs && PrMatches(w1.repo.prs[w1.state.pr], w1.state));
    Ran(w2, w2.repo.prs[w2.state.pr])
  }

  // ---------------------------------------------------------------- the phases

  /** A clean checkout of the task branch; its HEAD. */
  function Checkout(w: World): Exec<Sha> {
    var (w1, _) :- Clean(w);
    Identity(w1)
  }

  function Reserve(w: World, args: Args): Exec<()> {
    if w.state.phase == Unstarted
    then Save(w, w.state.(phase := Preparing, rounds := 0, required := args.required))
    else Ran(w, ())
  }

  function PrepareTask(w: World, args: Args): Exec<()> {
    var (w1, _) :- Clean(w);
    var (w2, _) :- Reserve(w1, args);
    var (w3, _) :- Checkout(w2);
    Save(w3, w3.state.(phase := Implement))
  }

  /** Pay for one more implementer run. */
  function BeginAttempt(w: World, args: Args): Exec<Sha> {
    var (w1, before) :- Checkout(w);
    var attempt := w1.state.rounds + 1;
    var (w2, _) :- Require(w1, attempt <= args.maxRounds);
    var (w3, _) :- Save(w2, w2.state.(phase := AgentRunning, rounds := attempt, before := before));
    Ran(w3, before)
  }

  function RunAgent(w: World): Exec<()> {
    Command(w.(launches := w.launches + 1))
  }

  function FinishAttempt(w: World, before: Sha): Exec<()> {
    var (w1, head) :- Checkout(w);
    var (w2, _) :- Require(w1, head != before);
    Save(w2, w2.state.(phase := Review))
  }

  function ImplementTask(w: World, args: Args): Exec<()> {
    var (w1, before) :- BeginAttempt(w, args);
    var (w2, _) :- RunAgent(w1);
    FinishAttempt(w2, before)
  }

  /** Commit the report on top of HEAD, under a commit id never seen before. */
  function CommitReport(w: World, output: Text, sha: Sha): Exec<()> {
    var (w1, _) :- Command(w);
    var (w2, _) :- Require(w1, w1.repo.head in w1.repo.commits && sha !in w1.repo.commits);
    var tree := w2.repo.commits[w2.repo.head][REPORT := output];
    Ran(w2.(repo := w2.repo.(commits := w2.repo.commits[sha := tree], head := sha)), ())
  }

  /** HEAD is looked up again only to record an approval. */
  function Tip(w: World, verdict: Verdict): Exec<Sha> {
    if verdict == Approved then Identity(w) else Ran(w, "")
  }

  /** The end of a review: one save, and a second one for a BLOCKED verdict. */
  function RecordVerdict(w: World, head: Sha, tip: Sha, verdict: Verdict): Exec<()> {
    var (w1, _) :- Save(w, w.state.(phase := if verdict == Approved then ApprovedPhase else Fix,
                                    reviewed := head,
                                    approvedHead := if verdict == Approved then tip else ""));
    if verdict == Blocked then
      var (w2, _) :- Save(w1, w1.state.(phase := BlockedPhase));
      Stopped(w2)
    else Ran(w1, ())
  }

  /** Local checks, the diff and the reviewing agent, around which HEAD must not have moved. */
  function AskReviewer(w: World): Exec<Sha> {
    var (w1, head) :- Checkout(w);
    var (w2, again) :- CommandThenCheckout(w1);
    var (w3, _) :- Require(w2, again == head);
    Ran(w3, head)
  }

  function CommandThenCheckout(w: World): Exec<Sha> {
    var (w1, _) :- Command(w);
    Checkout(w1)
  }

  function Noted(w: World, head: Sha, report: Text): World {
    w.(reviews := w.reviews + [Given(head, report)])
  }

  function ReviewTask(w: World, output: Text, sha: Sha): Exec<()> {
    var (w1, head) :- AskReviewer(w);
    var verdict := ReviewVerdict(output, head);
    var (w2, _) :- Require(w1, verdict.Ok?);
    var (w3, _) :- CommitReport(Noted(w2, head, output), output, sha);
    var (w4, tip) :- Tip(w3, verdict.value);
    RecordVerdict(w4, head, tip, verdict.value)
  }

  /** `openPrs` is what the host lists; `created` the number of the pull request it opens. */
  function PublishTask(w: World, openPrs: seq<nat>, created: nat): Exec<()> {
    var (w1, _) :- Gate(w);
    OpenPr(w1, openPrs, created)
  }

  predicate FollowsBranch(pr: PullRequest) {
    pr.state == Open && pr.headRef == BRANCH && !pr.cross
  }

  /** A push moves the branch on the host, and with it the head of its open pull requests. */
  function Pushed(r: Repo): Repo {
    r.(remote := Some(r.head),
       prs := map n | n in r.prs :: if FollowsBranch(r.prs[n]) then r.prs[n].(headOid := r.head) else r.prs[n])
  }

  /** The host opens pull request `n` for the branch; numbers are not used twice. */
  function Opened(r: Repo, n: nat): Repo {
    if n in r.prs || r.remote.None? then r
    else r.(prs := r.prs[n := PullRequest(Open, r.remote.value, BRANCH, "main", false)])
  }

  function PushBranch(w: World): Exec<()> {
    var (w1, _) :- Command(w);
    Ran(w1.(repo := Pushed(w1.repo)), ())
  }

  function CreatePr(w: World, created: nat): Exec<()> {
    var (w1, _) :- Command(w);
    Ran(w1.(repo := Opened(w1.repo, created)), ())
  }

  function OpenPr(w: World, openPrs: seq<nat>, created: nat): Exec<()> {
    var (w1, _) :- PushBranch(w);
    var (w2, _) :- Command(w1);                    // list
    var (w3, _) :- Require(w2, |openPrs| <= 1);
    var (w4, _) :- if openPrs == [] then CreatePr(w3, created) else Ran(w3, ());
    Save(w4, w4.state.(phase := Ci, pr := if openPrs == [] then created else openPrs[0]))
  }

  /** One poll of the checks: what the two listings return and how many entries they claim. */
  datatype Poll = Poll(checks: seq<Check>, total: nat)

  datatype CiOutcome = Continue | Pause

  /** `gh pr merge --match-head-commit`: an open pull request is merged, or queued to be, only at that
      head; one already merged is left as it is. */
  function MergePr(w: World, head: Sha, checks: seq<Check>, required: set<string>): Exec<()> {
    var (w1, _) :- Command(w);
    var w2 := w1.(merges := w1.merges + [MergeCommand(w1.state.reviewed, head, checks, required)]);
    var n := w2.state.pr;
    if n in w2.repo.prs && w2.repo.prs[n].state == Merged then Ran(w2, ())
    else
      var (w3, _) :- Require(w2, n in w2.repo.prs && w2.repo.prs[n].state == Open && w2.repo.prs[n].headOid == head);
      if w3.repo.queueing then Ran(w3, ())
      else Ran(w3.(repo := w3.repo.(prs := w3.repo.prs[n := w3.repo.prs[n].(state := Merged)])), ())
  }

  function MergeGreen(w: World, args: Args, checks: seq<Check>): Exec<CiOutcome> {
    var (w1, _) :- Gate(w);
    var (w2, _) :- ViewPr(w1);
    if args.autoMerge then ConfirmMerge(w2, args, checks) else Ran(w2, Pause)
  }

  function ConfirmMerge(w: World, args: Args, checks: seq<Check>): Exec<CiOutcome> {
    var (w1, _) :- MergePr(w, w.state.approvedHead, checks, w.state.required + args.required);
    var (w2, pr) :- ViewPr(w1);
    var (w3, _) :- Require(w2, pr.state == Merged);
    var (w4, _) :- Save(w3, w3.state.(phase := MergedPhase));
    Ran(w4, Continue)
  }

  /** One round of the polling loop; None is "wait and poll again". */
  function PollOnce(w: World, args: Args, poll: Poll): Exec<Option<CiOutcome>> {
    var (w1, _) :- ReadChecks(w, poll);
    DecidePoll(w1, args, poll.checks)
  }

  function ReadChecks(w: World, poll: Poll): Exec<()> {
    var (w1, _) :- ViewPr(w);
    var (w2, _) :- Command(w1);
    Require(w2, poll.total <= 100)
  }

  function DecidePoll(w: World, args: Args, checks: seq<Check>): Exec<Option<CiOutcome>> {
    if exists c :: c in checks && c.bucket == Fail then
      var (w1, _) :- Save(w, w.state.(phase := Fix));
      Ran(w1, Some(Continue))
    else if ChecksPass(checks, w.state.required + args.required) then
      var (w1, o) :- MergeGreen(w, args, checks);
      Ran(w1, Some(o))
    else Ran(w, None)
  }

  /** The polling loop; running out of polls is the deadline. */
  function PollChecks(w: World, args: Args, polls: seq<Poll>): Exec<CiOutcome>
    decreases |polls|
  {
    if polls == [] then Stopped(w)
    else
      var (w1, decision) :- PollOnce(w, args, polls[0]);
      if decision.Some? then Ran(w1, decision.value) else PollChecks(w1, args, polls[1..])
  }

  function CiTask(w: World, args: Args, polls: seq<Poll>): Exec<CiOutcome> {
    var (w1, _) :- Gate(w);
    var (w2, pr) :- ViewPr(w1);
    if pr.state == Merged then
      var (w3, _) :- Save(w2, w2.state.(phase := MergedPhase));
      Ran(w3, Continue)
    else PollChecks(w2, args, polls)
  }

  function CleanupTask(w: World, worktreeExists: bool): Exec<()> {
    var (w1, pr) :- ViewPr(w);
    var (w2, _) :- Require(w1, pr.state == Merged);
    RemoveWorktree(w2, worktreeExists)
  }

  function RemoveWorktree(w: World, worktreeExists: bool): Exec<()> {
    var (w1, _) :- Clean(w);
    var (w2, _) :- if worktreeExists then Gate(w1) else Ran(w1, ());
    FinishRemoval(w2)
  }

  /** The branch on the host goes only while it is at the approved head: later commits are kept. */
  function DeleteBranch(w: World): Exec<()> {
    var (w1, _) :- Require(w, w.repo.remote == Some(w.state.approvedHead));
    var (w2, _) :- Command(w1);                    // push --force-with-lease
    var (w3, _) :- Require(w2, w2.repo.remote == Some(w2.state.approvedHead));
    Ran(w3.(repo := w3.repo.(remote := None)), ())
  }

  function DeleteRemote(w: World): Exec<()> {
    var (w1, _) :- Command(w);                     // ls-remote
    if w1.repo.remote.None? then Ran(w1, ()) else DeleteBranch(w1)
  }

  /** Worktree and branches go, and the task is done. */
  function FinishRemoval(w: World): Exec<()> {
    var (w1, _) :- Command(w);                     // worktree and local branch
    var (w2, _) :- DeleteRemote(w1);
    var (w3, _) :- Command(w2);                    // fetch
    Save(w3, w3.state.(phase := Done))
  }
}
