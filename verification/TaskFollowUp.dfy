/** What follows what: the rows and fields a finished Run or a CI result leaves behind, case by case. */
module TaskFollowUp {
  import opened Lists
  import opened Models
  import opened TaskMachine
  import opened TaskShape
  import opened TaskLaws

  // --- what a transaction added ---

  ghost function NewRuns(s: State, t: State): set<Run> {
    set r | r in t.runs && forall x :: x in s.runs ==> x.id != r.id
  }

  /** No Run, no question, and the Task is where it was. */
  ghost predicate Nothing(s: State, t: State) {
    && NewRuns(s, t) == {} && |t.decisions| == |s.decisions|
    && t.task.assignee == s.task.assignee && t.task.status == s.task.status
  }

  /** The Task is this Member's; a Bot gets exactly one Run of the kind, waiting for it. */
  ghost predicate Handed(s: State, t: State, m: Member, kind: RunKind, origin: Origin, tx: Tx) {
    && t.task.status == InProgress && t.task.assignee == Some(m.id) && |t.decisions| == |s.decisions|
    && NewRuns(s, t) == if m.isBot
                        then {Run(tx.newRun, kind, Pending, Some(m.id), "", None, 0, NoSummary, "", "", NoVerdict,
                                  tx.now, None, None, origin)}
                        else {}
  }

  /** From one role's holder to another's, when both roles are held. */
  ghost predicate PassedOn(s: State, t: State, from: Role, to: Role, kind: RunKind, origin: Origin, tx: Tx) {
    if Holder(s.members, from).None? || Holder(s.members, to).None? then Nothing(s, t)
    else Handed(s, t, Holder(s.members, to).value, kind, origin, tx)
  }

  /** A question about merging the head waits for people: a new one unless one was waiting. */
  ghost predicate Asked(s: State, t: State, tx: Tx) {
    && NewRuns(s, t) == {} && t.task.assignee == s.task.assignee && t.task.status == s.task.status
    && |s.decisions| <= |t.decisions|
    && t.decisions[|s.decisions|..] ==
         if exists d :: d in t.decisions[..|s.decisions|] && d.action.MergeIt? && d.answer == "" then []
         else [Decision(tx.newDecision, MergeIt, t.task.head, None, "")]
  }

  predicate SucceededBuild(r: Run) { r.kind == Build && r.status == Succeeded }

  predicate BuildUnderWay(r: Run) { r.kind == Build && (r.status == Pending || r.status == Running) }

  /** Back to the Builder, who has three builds before people are asked; while a build is under way nothing happens. */
  ghost predicate SentBackOrAsked(s: State, t: State, tx: Tx) {
    if exists r :: r in s.runs && BuildUnderWay(r) then Nothing(s, t)
    else if Count(s.runs, SucceededBuild) < 3 then PassedOn(s, t, Sentry, Builder, Build, SentBack, tx)
    else Asked(s, t, tx)
  }

  predicate MergeUnderWay(r: Run) { r.kind == Merge && (r.status == Pending || r.status == Running) }

  /** The merge of an approved Task: u is how the rows stand. */
  ghost predicate MergeTried(s: State, u: State, t: State, tx: Tx) {
    if u.task.mergedAt.Some? || u.task.branch == "" || !Approved(u) || exists r :: r in u.runs && MergeUnderWay(r)
    then Nothing(s, t)
    else match CiState(u.checks, u.task.head, LastBuild(u))
      case CheckFailure => SentBackOrAsked(s, t, tx)
      case CheckPending => Nothing(s, t)
      case CheckSuccess =>
        if u.project.policy == AskFirst then Asked(s, t, tx)
        else
          && t.task == u.task && |t.decisions| == |s.decisions|
          && NewRuns(s, t) == {Run(tx.newRun, Merge, Pending, None, "", None, 0, NoSummary, "", u.task.head, NoVerdict,
                                   tx.now, None, None, ByAutopilot)}
  }

  // --- who holds a role ---

  /** The i-th Member is the first listed with the role who has not left. */
  predicate FirstHolds(members: seq<Member>, role: Role, i: nat)
    requires i < |members|
  {
    && members[i].role == role && !members[i].left
    && forall j :: 0 <= j < i ==> members[j].role != role || members[j].left
  }

  lemma {:induction false} HolderIsFirst(members: seq<Member>, role: Role)
    ensures Holder(members, role).None? <==> forall m :: m in members ==> m.role != role || m.left
    ensures Holder(members, role).Some? ==>
      exists i :: 0 <= i < |members| && FirstHolds(members, role, i) && Holder(members, role) == Some(members[i])
  {
    if members != [] && !(members[0].role == role && !members[0].left) {
      HolderIsFirst(members[1..], role);
      HolderOfRest(members, role);
      if Holder(members[1..], role).Some? {
        var i :| 0 <= i < |members[1..]| && FirstHolds(members[1..], role, i)
                 && Holder(members[1..], role) == Some(members[1..][i]);
        assert forall j :: 1 <= j < i + 1 ==> members[j] == members[1..][j - 1];
        assert FirstHolds(members, role, i + 1);
      }
      assert forall m :: m in members ==> m == members[0] || m in members[1..];
    } else if members != [] {
      assert FirstHolds(members, role, 0);
    }
  }

  lemma HolderOfRest(members: seq<Member>, role: Role)
    requires members != [] && !(members[0].role == role && !members[0].left)
    ensures Holder(members, role) == Holder(members[1..], role)
  {}

  // --- moves, in rows and fields ---

  ghost predicate SameIds(was: seq<Run>, now: seq<Run>) {
    forall r :: r in now ==> exists x :: x in was && x.id == r.id
  }

  /** mid is s after the reporting Run's own row, its questions and the pushed branch were written. */
  ghost predicate Same(s: State, mid: State) {
    && SameIds(s.runs, mid.runs) && |mid.decisions| == |s.decisions| && mid.members == s.members
    && mid.task.assignee == s.task.assignee && mid.task.status == s.task.status
  }

  lemma NoneNew(s: State, mid: State)
    requires SameIds(s.runs, mid.runs)
    ensures NewRuns(s, mid) == {}
  {}

  lemma OneNew(s: State, mid: State, q: Run)
    requires SameIds(s.runs, mid.runs) && forall x :: x in s.runs ==> x.id != q.id
    ensures NewRuns(s, QueueRun(mid, q)) == {q}
  {
    var t := QueueRun(mid, q);
    assert forall r :: r in NewRuns(s, t) <==> r == q;
  }

  lemma HandDoes(s: State, mid: State, m: Member, origin: Origin, tx: Tx)
    requires Same(s, mid) && (forall x :: x in s.runs ==> x.id != tx.newRun)
    requires m.role == Builder || (m.role == Sentry && mid.task.branch != "")
    ensures Handed(s, HandOff(mid, m, true, origin, tx), m, if m.role == Builder then Build else Review, origin, tx)
  {
    var k := if m.role == Builder then Build else Review;
    var handed := mid.(task := mid.task.(assignee := Some(m.id), status := InProgress));
    NoneNew(s, handed);
    OneNew(s, handed, Run(tx.newRun, k, Pending, Some(m.id), "", None, 0, NoSummary, "", "", NoVerdict,
                          tx.now, None, None, origin));
  }

  lemma PassOnDoes(s: State, mid: State, from: Role, to: Role, origin: Origin, tx: Tx)
    requires Same(s, mid) && (forall x :: x in s.runs ==> x.id != tx.newRun)
    requires to == Builder || (to == Sentry && mid.task.branch != "")
    ensures PassedOn(s, Do(mid, PassOn(mid, from, to, origin), tx), from, to,
                     if to == Builder then Build else Review, origin, tx)
  {
    NoneNew(s, mid);
    HolderIsFirst(mid.members, to);
    if Holder(mid.members, to).Some? {
      HandDoes(s, mid, Holder(mid.members, to).value, origin, tx);
    }
  }

  lemma AskDoes(s: State, mid: State, tx: Tx)
    requires Same(s, mid)
    ensures Asked(s, Do(mid, AskPeople, tx), tx)
  {
    NoneNew(s, mid);
    var t := Do(mid, AskPeople, tx);
    assert t.decisions[..|s.decisions|] == mid.decisions;
    assert forall d :: OpenAsk(d) <==> d.action.MergeIt? && d.answer == "";
  }

  lemma RestDoes(s: State, mid: State)
    requires Same(s, mid)
    ensures Nothing(s, mid)
  {
    NoneNew(s, mid);
  }

  /** Builds are where they were. */
  ghost predicate SameBuilds(was: seq<Run>, now: seq<Run>) {
    |now| == |was| && forall i :: 0 <= i < |was| ==> now[i] == was[i] || (now[i].kind != Build && was[i].kind != Build)
  }

  lemma BuildsAgree(was: seq<Run>, now: seq<Run>)
    requires SameBuilds(was, now)
    ensures Count(was, SucceededBuild) == Count(now, DoneBuild)
    ensures (exists r :: r in was && BuildUnderWay(r)) <==> (exists r :: r in now && ActiveBuild(r))
  {
    CountPointwise(was, now, SucceededBuild, DoneBuild);
    CountPointwise(now, was, DoneBuild, SucceededBuild);
    if r :| r in was && BuildUnderWay(r) {
      var i :| 0 <= i < |was| && was[i] == r;
      assert now[i] == r && ActiveBuild(r);
    }
    if r :| r in now && ActiveBuild(r) {
      var i :| 0 <= i < |now| && now[i] == r;
      assert was[i] == r && BuildUnderWay(r);
    }
  }

  lemma SendBackDoes(s: State, mid: State, tx: Tx)
    requires Same(s, mid) && SameBuilds(s.runs, mid.runs) && (forall x :: x in s.runs ==> x.id != tx.newRun)
    ensures SentBackOrAsked(s, Do(mid, SendBack(mid), tx), tx)
  {
    BuildsAgree(s.runs, mid.runs);
    if exists r :: r in s.runs && BuildUnderWay(r) {
      RestDoes(s, mid);
    } else if Count(s.runs, SucceededBuild) < 3 {
      PassOnDoes(s, mid, Sentry, Builder, SentBack, tx);
    } else {
      AskDoes(s, mid, tx);
    }
  }

  lemma LandDoes(s: State, mid: State, tx: Tx)
    requires Same(s, mid) && (forall x :: x in s.runs ==> x.id != tx.newRun)
    ensures NewRuns(s, Do(mid, Land, tx)) == {Run(tx.newRun, Merge, Pending, None, "", None, 0, NoSummary, "",
                                                  mid.task.head, NoVerdict, tx.now, None, None, ByAutopilot)}
  {
    OneNew(s, mid, NewRun(Merge, None, mid.task.head, ByAutopilot, tx));
  }

  lemma MergesAgree(runs: seq<Run>)
    ensures (exists r :: r in runs && MergeUnderWay(r)) <==> (exists r :: r in runs && ActiveMerge(r))
  {
    assert forall r :: r in runs ==> (MergeUnderWay(r) <==> ActiveMerge(r));
  }

  lemma TryMergeDoes(s: State, mid: State, tx: Tx)
    requires Same(s, mid) && SameBuilds(s.runs, mid.runs) && (forall x :: x in s.runs ==> x.id != tx.newRun)
    ensures MergeTried(s, mid, Do(mid, TryMerge(mid), tx), tx)
  {
    MergesAgree(mid.runs);
    RestDoes(s, mid);
    SendBackDoes(s, mid, tx);
    AskDoes(s, mid, tx);
    LandDoes(s, mid, tx);
  }

  // --- a finished Run ---

  /** The report is accepted and ends the Run well, on an open Task of a Project that runs by itself. */
  ghost predicate GoesOn(s: State, agent: string, id: Id, rep: RunReport, tx: Tx) {
    && RunsOk(s.runs) && Fresh(s, tx) && rep.status == Succeeded
    && Report(s, agent, id, rep, tx).Committed?
    && s.project.autoRun && s.task.status != Done && s.task.status != Dropped
  }

  /** The row of the Run that reports. */
  ghost function Reporter(s: State, id: Id): Run
    requires RunAt(s.runs, id) < |s.runs|
  {
    s.runs[RunAt(s.runs, id)]
  }

  /** How the rows stand once the report is written down. */
  ghost function Noted(s: State, id: Id, rep: RunReport, tx: Tx): State
    requires RunAt(s.runs, id) < |s.runs|
  {
    var x := Reported(Reporter(s, id), rep, tx.now);
    s.(runs := s.runs[RunAt(s.runs, id) := x], decisions := CloseQuestions(s.decisions, {id}),
       task := TaskAfter(s.project, s.task, x, tx.now))
  }

  lemma NotedIsSame(s: State, id: Id, rep: RunReport, tx: Tx)
    requires RunAt(s.runs, id) < |s.runs| && !(Reporter(s, id).kind == Merge && rep.status == Succeeded)
    ensures Same(s, Noted(s, id, rep, tx))
    ensures Reporter(s, id).kind != Build ==>
      SameBuilds(s.runs, Noted(s, id, rep, tx).runs) && Noted(s, id, rep, tx).task == s.task
  {
    var i := RunAt(s.runs, id);
    assert s.runs[i] in s.runs;
  }

  lemma ReportDoes(s: State, agent: string, id: Id, rep: RunReport, tx: Tx)
    requires Report(s, agent, id, rep, tx).Committed? && rep.status.Terminal()
    ensures RunAt(s.runs, id) < |s.runs|
    ensures var u := Noted(s, id, rep, tx);
      Report(s, agent, id, rep, tx).state == Do(u, AfterRun(u, Reported(Reporter(s, id), rep, tx.now)), tx)
  {}

  /** The verdict a review's final report carries. */
  predicate Says(r: Run, rep: RunReport, v: Verdict) {
    if rep.summary.Summary? then rep.summary.verdict == v
    else if r.summary.Summary? then r.summary.verdict == v else v == NoVerdict
  }

  lemma VerdictIs(r: Run, rep: RunReport, v: Verdict, now: Time)
    requires r.kind == Review && rep.status == Succeeded && Says(r, rep, v)
    ensures var x := Reported(r, rep, now); x.kind == Review && x.status == Succeeded && x.verdict == v
  {}

  lemma ReviewMoves(u: State, x: Run)
    requires x.kind == Review && x.status == Succeeded
    requires u.project.autoRun && u.task.status != Done && u.task.status != Dropped
    ensures AfterRun(u, x) == match x.verdict
                              case Approve => TryMerge(u)
                              case Changes => SendBack(u)
                              case NoVerdict => Rest
  {}

  /** The state after a review's final report. */
  lemma ReviewDoes(s: State, agent: string, id: Id, rep: RunReport, tx: Tx, v: Verdict)
    requires GoesOn(s, agent, id, rep, tx) && Reporter(s, id).kind == Review && Says(Reporter(s, id), rep, v)
    ensures var u := Noted(s, id, rep, tx);
      && Same(s, u) && SameBuilds(s.runs, u.runs)
      && Report(s, agent, id, rep, tx).state == match v
                                                case Approve => Do(u, TryMerge(u), tx)
                                                case Changes => Do(u, SendBack(u), tx)
                                                case NoVerdict => u
  {
    ReportDoes(s, agent, id, rep, tx);
    NotedIsSame(s, id, rep, tx);
    VerdictIs(Reporter(s, id), rep, v, tx.now);
    ReviewMoves(Noted(s, id, rep, tx), Reported(Reporter(s, id), rep, tx.now));
  }

  /** A review that asks for changes sends the Task back to the Builder, or to people after three builds. */
  lemma ChangesGoBack(s: State, agent: string, id: Id, rep: RunReport, tx: Tx)
    requires GoesOn(s, agent, id, rep, tx) && Reporter(s, id).kind == Review && Says(Reporter(s, id), rep, Changes)
    ensures SentBackOrAsked(s, Report(s, agent, id, rep, tx).state, tx)
  {
    ReviewDoes(s, agent, id, rep, tx, Changes);
    SendBackDoes(s, Noted(s, id, rep, tx), tx);
  }

  /** A review that approves leads to a merge, to a question, back to the Builder when CI failed, or to waiting. */
  lemma ApprovalTriesToMerge(s: State, agent: string, id: Id, rep: RunReport, tx: Tx)
    requires GoesOn(s, agent, id, rep, tx) && Reporter(s, id).kind == Review && Says(Reporter(s, id), rep, Approve)
    ensures MergeTried(s, Noted(s, id, rep, tx), Report(s, agent, id, rep, tx).state, tx)
  {
    ReviewDoes(s, agent, id, rep, tx, Approve);
    TryMergeDoes(s, Noted(s, id, rep, tx), tx);
  }

  lemma NoVerdictRests(s: State, agent: string, id: Id, rep: RunReport, tx: Tx)
    requires GoesOn(s, agent, id, rep, tx) && Reporter(s, id).kind == Review && Says(Reporter(s, id), rep, NoVerdict)
    ensures Nothing(s, Report(s, agent, id, rep, tx).state)
  {
    ReviewDoes(s, agent, id, rep, tx, NoVerdict);
    RestDoes(s, Noted(s, id, rep, tx));
  }

  /** A plan leads to a build. */
  lemma PlanLeadsToBuild(s: State, agent: string, id: Id, rep: RunReport, tx: Tx)
    requires GoesOn(s, agent, id, rep, tx) && Reporter(s, id).kind == Plan
    ensures PassedOn(s, Report(s, agent, id, rep, tx).state, Scout, Builder, Build, ByAutopilot, tx)
  {
    ReportDoes(s, agent, id, rep, tx);
    NotedIsSame(s, id, rep, tx);
    PassOnDoes(s, Noted(s, id, rep, tx), Scout, Builder, ByAutopilot, tx);
  }

  /** The branch a build's report leaves on its Run: what it names, else what the row had. */
  function Pushed(r: Run, rep: RunReport): string { if rep.branch != "" then rep.branch else r.branch }

  function PushedCommit(r: Run, rep: RunReport): string { if rep.commit != "" then rep.commit else r.commit }

  /** A build leads to a review of the Task's branch: the one it pushed, unless that is the default branch. Without any
      branch there is nothing to review. */
  lemma BuildLeadsToReview(s: State, agent: string, id: Id, rep: RunReport, tx: Tx)
    requires GoesOn(s, agent, id, rep, tx) && Reporter(s, id).kind == Build
    ensures var t := Report(s, agent, id, rep, tx).state;
      var branch, commit := Pushed(Reporter(s, id), rep), PushedCommit(Reporter(s, id), rep);
      && (if branch != "" && branch != s.project.defaultBranch
          then t.task.branch == branch && t.task.head == (if commit != "" then commit else s.task.head)
          else t.task.branch == s.task.branch && t.task.head == s.task.head)
      && (if t.task.branch == "" then Nothing(s, t) else PassedOn(s, t, Builder, Sentry, Review, ByAutopilot, tx))
  {
    ReportDoes(s, agent, id, rep, tx);
    NotedIsSame(s, id, rep, tx);
    var u := Noted(s, id, rep, tx);
    RestDoes(s, u);
    if u.task.branch != "" {
      PassOnDoes(s, u, Builder, Sentry, ByAutopilot, tx);
    }
  }

  /** A merge that succeeded closes the Task and nothing follows. */
  lemma MergeCloses(s: State, agent: string, id: Id, rep: RunReport, tx: Tx)
    requires Report(s, agent, id, rep, tx).Committed? && rep.status == Succeeded && Reporter(s, id).kind == Merge
    ensures var t := Report(s, agent, id, rep, tx).state;
      t.task == s.task.(status := Done, mergedAt := Some(tx.now)) && NewRuns(s, t) == {}
          && |t.decisions| == |s.decisions|
  {
    ReportDoes(s, agent, id, rep, tx);
    assert s.runs[RunAt(s.runs, id)] in s.runs;
    NoneNew(s, Noted(s, id, rep, tx));
  }

  /** Nothing follows a Run that did not succeed, a Task that people closed, or a Project that does not run by
      itself. */
  lemma OtherwiseNothing(s: State, agent: string, id: Id, rep: RunReport, tx: Tx)
    requires Report(s, agent, id, rep, tx).Committed? && Reporter(s, id).kind != Merge
    requires rep.status != Succeeded || !s.project.autoRun || s.task.status == Done || s.task.status == Dropped
    ensures Nothing(s, Report(s, agent, id, rep, tx).state)
  {
    NotedIsSame(s, id, rep, tx);
    RestDoes(s, Noted(s, id, rep, tx));
    if rep.status.Terminal() {
      ReportDoes(s, agent, id, rep, tx);
    } else {
      assert s.runs[RunAt(s.runs, id)] in s.runs;
      NoneNew(s, Report(s, agent, id, rep, tx).state);
    }
  }

  // --- a CI result ---

  /** Nothing to do about a result: it is pending, or the Task is not one the autopilot works on. */
  predicate CheckRests(s: State, status: CheckStatus) {
    s.task.branch == "" || s.task.mergedAt.Some? || s.task.status == Done || s.task.status == Dropped
    || !s.project.autoRun || status == CheckPending
  }

  /** What follows a result, recorded or changed: u is how the rows stand. */
  ghost predicate CheckFollowed(s: State, u: State, t: State, status: CheckStatus, tx: Tx) {
    if CheckRests(s, status) then Nothing(s, t)
    else if status == CheckFailure then SentBackOrAsked(s, t, tx)
    else MergeTried(s, u, t, tx)
  }

  lemma CheckDoes(s: State, u: State, c: Check, tx: Tx)
    requires u == s.(checks := u.checks) && forall x :: x in s.runs ==> x.id != tx.newRun
    ensures CheckFollowed(s, u, Do(u, OnCheck(u, c), tx), c.status, tx)
  {
    CheckMoves(u, c);
    if CheckRests(u, c.status) {
      RestDoes(s, u);
    } else if c.status == CheckFailure {
      SendBackDoes(s, u, tx);
    } else {
      TryMergeDoes(s, u, tx);
    }
  }

  lemma CheckMoves(u: State, c: Check)
    ensures OnCheck(u, c) == if CheckRests(u, c.status) then Rest
                             else if c.status == CheckFailure then SendBack(u) else TryMerge(u)
  {}

  /** A failed result sends the Task back, a success may merge it, and a pending one changes nothing. */
  lemma RecordedCheckFollowed(s: State, name: string, status: CheckStatus, commit: string, tx: Tx)
    requires forall x :: x in s.runs ==> x.id != tx.newRun
    ensures var u := s.(checks := Insert(s.checks, Check(tx.newCheck, name, status, commit, tx.now, tx.now),
      CheckBefore));
      CheckFollowed(s, u, RecordCheck(s, name, status, commit, tx), status, tx)
  {
    var c := Check(tx.newCheck, name, status, commit, tx.now, tx.now);
    CheckDoes(s, s.(checks := Insert(s.checks, c, CheckBefore)), c, tx);
  }

  lemma UpdatedCheckFollowed(s: State, id: Id, status: CheckStatus, tx: Tx)
    requires UpdateCheck(s, id, status, tx).Committed? && forall x :: x in s.runs ==> x.id != tx.newRun
    ensures var i := CheckAt(s.checks, id);
      var u := s.(checks := s.checks[i := s.checks[i].(status := status, updatedAt := tx.now)]);
      CheckFollowed(s, u, UpdateCheck(s, id, status, tx).state, status, tx)
  {
    var i := CheckAt(s.checks, id);
    var c := s.checks[i].(status := status, updatedAt := tx.now);
    CheckDoes(s, s.(checks := s.checks[i := c]), c, tx);
  }

  /** The result listed first is the newest. */
  lemma NewestResultFirst(s: State, name: string, status: CheckStatus, commit: string, tx: Tx)
    requires forall c :: c in s.checks ==> c.createdAt < tx.now
    ensures RecordCheck(s, name, status, commit, tx).checks
         == [Check(tx.newCheck, name, status, commit, tx.now, tx.now)] + s.checks
  {
    var c := Check(tx.newCheck, name, status, commit, tx.now, tx.now);
    assert Place(s.checks, c, CheckBefore) == 0;
    assert s.checks[..0] + [c] + s.checks[0..] == [c] + s.checks;
    DoKeepsChecks(s.(checks := Insert(s.checks, c, CheckBefore)), c, tx);
  }

  lemma DoKeepsChecks(u: State, c: Check, tx: Tx)
    ensures Do(u, OnCheck(u, c), tx).checks == u.checks
  {}

  // --- people hand the Task over ---

  /** Whoever gets the Task has it in progress. Scouts plan, Builders build and Sentries review, when they are Bots, the
      Project or the person says so, and there is something to review; nobody else starts a Run. */
  lemma HandedByPeople(s: State, to: Id, autorun: bool, tx: Tx)
    requires HandTask(s, to, autorun, tx).Committed? && forall x :: x in s.runs ==> x.id != tx.newRun
    ensures var m := s.members[MemberAt(s.members, to)];
      var t := HandTask(s, to, autorun, tx).state;
      && m.id == to && t == s.(task := s.task.(status := InProgress, assignee := Some(to)), runs := t.runs)
      && if m.isBot && (autorun || s.project.autoRun) && m.role != OtherRole
        && (m.role == Sentry ==> s.task.branch != "")
         then NewRuns(s, t) == {Run(tx.newRun, match m.role case Scout => Plan case Sentry => Review case _ => Build,
                                    Pending, Some(to), "", None, 0, NoSummary, "", "", NoVerdict, tx.now, None, None,
                                    ByPeople)}
         else t.runs == s.runs
  {
    var m := s.members[MemberAt(s.members, to)];
    OneNew(s, s.(task := s.task.(status := InProgress, assignee := Some(to))),
           NewRun(KindForRole(m.role), Some(to), "", ByPeople, tx));
  }

  // --- what a report writes and when it is refused ---

  /** A report is accepted exactly from the worker that has the Run, or as a person's bare cancellation, while the Run
      is pending or running; a pending Run cannot succeed and a running one cannot go back. */
  lemma ReportAcceptedExactlyWhen(s: State, agent: string, id: Id, rep: RunReport, tx: Tx)
    ensures var i := RunAt(s.runs, id);
      Report(s, agent, id, rep, tx).Committed? <==>
        && i < |s.runs| && (agent == "" || s.runs[i].worker == agent)
        && (agent == "" ==> rep == RunReport(Canceled, NoSummary, "", ""))
        && (s.runs[i].status == Pending || s.runs[i].status == Running)
        && (rep.status == Pending ==> s.runs[i].status == Pending)
        && (rep.status == Succeeded ==> s.runs[i].status == Running)
  {}

  /** The row an accepted report leaves: its status and times, what the report names and otherwise what was there. No
      other row changes. */
  lemma ReportWritesRow(s: State, agent: string, id: Id, rep: RunReport, tx: Tx) returns (x: Run)
    requires Report(s, agent, id, rep, tx).Committed?
    ensures var was := Reporter(s, id);
      && x in Report(s, agent, id, rep, tx).state.runs
      && x.id == was.id && x.kind == was.kind && x.bot == was.bot && x.worker == was.worker && x.status == rep.status
      && x.createdAt == was.createdAt
      && x.summary == (if rep.summary == NoSummary then was.summary else rep.summary)
      && x.branch == Pushed(was, rep)
      && x.commit == (if was.kind == Merge then was.commit else PushedCommit(was, rep))
      && (x.finishedAt == if rep.status in {Succeeded, Failed, Canceled} then Some(tx.now) else was.finishedAt)
      && (x.lease == if rep.status in {Succeeded, Failed, Canceled} then None else was.lease)
      && (x.startedAt == if rep.status == Running && was.startedAt == None then Some(tx.now) else was.startedAt)
    ensures forall r :: r in s.runs && r.id != id ==> r in Report(s, agent, id, rep, tx).state.runs
  {
    var i := RunAt(s.runs, id);
    x := Reported(s.runs[i], rep, tx.now);
    var rows := s.runs[i := x];
    assert rows[i] == x;
    forall r | r in s.runs && r.id != id
      ensures r in rows
    {
      var j :| 0 <= j < |s.runs| && s.runs[j] == r;
      assert rows[j] == r;
    }
    if rep.status.Terminal() {
      ReportDoes(s, agent, id, rep, tx);
      var u := Noted(s, id, rep, tx);
      DoKeepsRows(u, AfterRun(u, x), tx);
    }
  }

  lemma DoKeepsRows(u: State, m: Move, tx: Tx)
    ensures forall r :: r in u.runs ==> r in Do(u, m, tx).runs
  {}

  // --- archived Projects ---

  /** In an archived Project nobody claims a Run, hands the Task over, requests a Run, answers, removes a Member or
      changes the Task's status. */
  lemma ArchivedStandsStill(s: State, op: Op, tx: Tx)
    requires s.project.archived
    requires op.OpClaim? || op.OpHandTask? || op.OpRequestRun? || op.OpAnswer? || op.OpRemoveMember?
      || op.OpSetTaskStatus?
    ensures Step(s, op, tx) == s
  {}

  /** Who may change what: the Project's settings only an edit, as it says; the Members only joining and removing; CI
      results only CI; and a status that people set, members that join or an edit of the settings touch nothing else. */
  lemma WhoChangesWhat(s: State, op: Op, tx: Tx)
    requires Fresh(s, tx)
    ensures var t := Step(s, op, tx);
      && t.project == (if op.OpUpdateProject? then op.project else s.project)
      && (!op.OpRemoveMember? ==> t.members == s.members + if op.OpJoin? then [op.newMember] else [])
      && (!op.OpRecordCheck? && !op.OpUpdateCheck? ==> t.checks == s.checks)
      && (op.OpSetTaskStatus? && !s.project.archived ==> t == s.(task := s.task.(status := op.taskStatus)))
      && (op.OpUpdateProject? || op.OpJoin? ==> t.task == s.task && t.runs == s.runs && t.decisions == s.decisions)
      && (op.OpHeartbeat? || op.OpClaim? ==> t.task == s.task && t.decisions == s.decisions)
  {
    assert s.members + [] == s.members;
    if op.OpReport? && Report(s, op.agent, op.run, op.rep, tx).Committed? && op.rep.status.Terminal() {
      ReportDoes(s, op.agent, op.run, op.rep, tx);
    }
  }
}
