/** What each operation on a Task does, one database transaction at a time.
    The autopilot is split in two: what it decides to do next, and doing it. */
module TaskMachine {
  import opened Lists
  import opened Models

  /** How many builds the Builder gets before a person decides. */
  const MAX_ROUNDS: nat := 3

  /** A Task and everything recorded against it. Runs and checks are kept in listing order, newest first. */
  datatype State = State(
    project: Project, members: seq<Member>, task: Task, runs: seq<Run>, decisions: seq<Decision>, checks: seq<Check>)

  /** A transaction's clock reading and the ids it may give to new rows. */
  datatype Tx = Tx(now: Time, newRun: Id, newDecision: Id, newCheck: Id)

  datatype Error = NotFound | Conflict | Invalid

  datatype Outcome = Committed(state: State) | RolledBack(error: Error)

  /** Row ids are random and never reused. */
  predicate Fresh(s: State, tx: Tx) {
    && (forall r :: r in s.runs ==> r.id != tx.newRun)
    && (forall d :: d in s.decisions ==> d.id != tx.newDecision)
    && (forall c :: c in s.checks ==> c.id != tx.newCheck)
  }

  // --- questions the operations ask of the rows ---

  predicate ActiveMerge(r: Run) { r.kind.Merge? && !r.status.Terminal() }

  predicate ActiveBuild(r: Run) { r.kind.Build? && !r.status.Terminal() }

  predicate DoneBuild(r: Run) { r.kind.Build? && r.status.Succeeded? }

  predicate DoneReview(r: Run) { r.kind.Review? && r.status.Succeeded? }

  predicate OpenAsk(d: Decision) { d.action.MergeIt? && d.answer == "" }

  /** The newest succeeded build and the newest succeeded review. */
  function LastBuild(s: State): Option<Run> { First(s.runs, DoneBuild) }

  function LastReview(s: State): Option<Run> { First(s.runs, DoneReview) }

  /** Where the row with this id is; the length of the list when there is none. */
  function RunAt(runs: seq<Run>, id: Id): (i: nat)
    ensures i <= |runs|
    ensures i < |runs| ==> runs[i].id == id
    ensures i == |runs| ==> forall r :: r in runs ==> r.id != id
  {
    if runs == [] || runs[0].id == id then 0 else 1 + RunAt(runs[1..], id)
  }

  function DecisionAt(ds: seq<Decision>, id: Id): (i: nat)
    ensures i <= |ds|
    ensures i < |ds| ==> ds[i].id == id
    ensures i == |ds| ==> forall d :: d in ds ==> d.id != id
  {
    if ds == [] || ds[0].id == id then 0 else 1 + DecisionAt(ds[1..], id)
  }

  function CheckAt(cs: seq<Check>, id: Id): (i: nat)
    ensures i <= |cs|
    ensures i < |cs| ==> cs[i].id == id
  {
    if cs == [] || cs[0].id == id then 0 else 1 + CheckAt(cs[1..], id)
  }

  function MemberAt(ms: seq<Member>, id: Id): (i: nat)
    ensures i <= |ms|
    ensures i < |ms| ==> ms[i].id == id
  {
    if ms == [] || ms[0].id == id then 0 else 1 + MemberAt(ms[1..], id)
  }

  /** The earliest current Member with a Role. */
  function Holder(members: seq<Member>, role: Role): Option<Member> {
    First(members, (m: Member) => m.role == role && !m.left)
  }

  /** Whether review covers the Task's latest work: the very commit when both are known,
      else a review created no earlier than the last build. */
  predicate Reviewed(review: Run, build: Option<Run>, task: Task) {
    if review.commit != "" && task.head != "" then review.commit == task.head
    else build.None? || review.createdAt >= build.value.createdAt
  }

  predicate Approved(s: State) {
    var review := LastReview(s);
    review.Some? && review.value.verdict.Approve? && Reviewed(review.value, LastBuild(s), s.task)
  }

  // --- CI ---

  /** Whether a check is about the Task's latest push. */
  predicate Relevant(c: Check, head: string, build: Option<Run>) {
    if c.commit != "" && head != "" then EqualFold(c.commit, head)
    else !(build.Some? && build.value.startedAt.Some? && c.updatedAt < build.value.startedAt.value)
  }

  /** The check at i is the latest relevant one of its name; the first listed wins a tie. */
  predicate Latest(cs: seq<Check>, i: nat, head: string, build: Option<Run>)
    requires i < |cs|
  {
    && Relevant(cs[i], head, build)
    && forall j :: 0 <= j < |cs| && cs[j].name == cs[i].name && Relevant(cs[j], head, build) ==>
         cs[j].updatedAt < cs[i].updatedAt || (cs[j].updatedAt == cs[i].updatedAt && i <= j)
  }

  predicate SomeLatest(cs: seq<Check>, head: string, build: Option<Run>, status: CheckStatus) {
    exists i :: 0 <= i < |cs| && Latest(cs, i, head, build) && cs[i].status == status
  }

  /** Success when the Task has no CI; pending when nothing is reported about the latest push. */
  function CiState(cs: seq<Check>, head: string, build: Option<Run>): CheckStatus {
    if cs == [] then CheckSuccess
    else if forall i :: 0 <= i < |cs| ==> !Relevant(cs[i], head, build) then CheckPending
    else if SomeLatest(cs, head, build, CheckFailure) then CheckFailure
    else if SomeLatest(cs, head, build, CheckPending) then CheckPending
    else CheckSuccess
  }

  // --- the autopilot: what to do next ---

  datatype Move = Rest | StartBot(to: Member, origin: Origin) | Land | AskPeople

  function PassOn(s: State, fromRole: Role, toRole: Role, origin: Origin): Move {
    var from, to := Holder(s.members, fromRole), Holder(s.members, toRole);
    if from.None? || to.None? then Rest else StartBot(to.value, origin)
  }

  function SendBack(s: State): Move {
    if exists r :: r in s.runs && ActiveBuild(r) then Rest
    else if Count(s.runs, DoneBuild) < MAX_ROUNDS then PassOn(s, Sentry, Builder, SentBack)
    else AskPeople
  }

  function TryMerge(s: State): Move {
    if s.task.mergedAt.Some? || s.task.branch == "" then Rest
    else if exists r :: r in s.runs && ActiveMerge(r) then Rest
    else if !Approved(s) then Rest
    else match CiState(s.checks, s.task.head, LastBuild(s))
      case CheckFailure => SendBack(s)
      case CheckPending => Rest
      case CheckSuccess => if s.project.policy.AskFirst? then AskPeople else Land
  }

  /** What follows a Run that just finished; the Task already carries what it pushed or merged. */
  function AfterRun(s: State, r: Run): Move {
    if !r.status.Succeeded? || r.kind.Merge? then Rest
    else if !s.project.autoRun || s.task.status.Done? || s.task.status.Dropped? then Rest
    else match r.kind
      case Plan => PassOn(s, Scout, Builder, ByAutopilot)
      case Build => if s.task.branch == "" then Rest else PassOn(s, Builder, Sentry, ByAutopilot)
      case Review =>
        (match r.verdict
         case Approve => TryMerge(s)
         case Changes => SendBack(s)
         case NoVerdict => Rest)
      case Merge => Rest
  }

  function OnCheck(s: State, c: Check): Move {
    if s.task.branch == "" || s.task.mergedAt.Some? || s.task.status.Done? || s.task.status.Dropped? then Rest
    else if !s.project.autoRun then Rest
    else match c.status
      case CheckFailure => SendBack(s)
      case CheckSuccess => TryMerge(s)
      case CheckPending => Rest
  }

  predicate SaysMerge(d: Decision) { d.action.MergeIt? && EqualFold(d.answer, "merge") }

  function OnDecision(s: State, d: Decision): Move {
    if !SaysMerge(d) then Rest
    else if s.task.mergedAt.Some? || s.task.branch == "" || s.task.status.Dropped? || s.task.status.Done? then Rest
    else if d.commit != "" && d.commit != s.task.head then Rest
    else if exists r :: r in s.runs && ActiveMerge(r) then Rest
    else Land
  }

  // --- doing it ---

  function QueueRun(s: State, r: Run): State {
    s.(runs := Insert(s.runs, r, RunBefore))
  }

  function NewRun(kind: RunKind, bot: Option<Id>, commit: string, origin: Origin, tx: Tx): Run {
    Run(tx.newRun, kind, Pending, bot, "", None, 0, NoSummary, "", commit, NoVerdict, tx.now, None, None, origin)
  }

  function CreateRun(s: State, bot: Option<Member>, kind: Option<RunKind>, origin: Origin, tx: Tx): State {
    var k := if kind.Some? then kind.value else if bot.Some? then KindForRole(bot.value.role) else Build;
    QueueRun(s, NewRun(k, if bot.Some? then Some(bot.value.id) else None, "", origin, tx))
  }

  /** Assigns the Task to a Member, reopening it, and starts the Member's Run when it is a Bot that works on Tasks. */
  function HandOff(s: State, to: Member, autorun: bool, origin: Origin, tx: Tx): State {
    var nothingToReview := to.role.Sentry? && s.task.branch == "";
    var t := s.(task := s.task.(assignee := Some(to.id), status := InProgress));
    if to.isBot && WorksOnTasks(to.role) && (autorun || s.project.autoRun) && !nothingToReview
    then CreateRun(t, Some(to), None, origin, tx)
    else t
  }

  function Ask(s: State, tx: Tx): State {
    if exists d :: d in s.decisions && OpenAsk(d) then s
    else s.(decisions := s.decisions + [Decision(tx.newDecision, MergeIt, s.task.head, None, "")])
  }

  function Do(s: State, m: Move, tx: Tx): State {
    match m
    case Rest => s
    case StartBot(to, origin) => HandOff(s, to, true, origin, tx)
    case Land => QueueRun(s, NewRun(Merge, None, s.task.head, ByAutopilot, tx))
    case AskPeople => Ask(s, tx)
  }

  /** What a finished Run leaves on its Task: a merge time, or the branch and commit it pushed. */
  function TaskAfter(project: Project, task: Task, r: Run, now: Time): Task {
    if !r.status.Succeeded? then task
    else if r.kind.Merge? then task.(status := Done, mergedAt := Some(now))
    else if r.kind.Build? && r.branch != "" && r.branch != project.defaultBranch then
      task.(branch := r.branch, head := if r.commit != "" then r.commit else task.head)
    else task
  }

  function Advance(s: State, r: Run, tx: Tx): State {
    var t := s.(task := TaskAfter(s.project, s.task, r, tx.now));
    Do(t, AfterRun(t, r), tx)
  }

  // --- the operations ---

  /** A worker's report on a Run, or a person's cancellation. */
  datatype RunReport = RunReport(status: RunStatus, summary: Summary, branch: string, commit: string)

  predicate OwnRun(agent: string, r: Run) { agent == "" || r.worker == agent }

  function Reported(r: Run, rep: RunReport, now: Time): Run {
    var summary := if rep.summary.Summary? then rep.summary else r.summary;
    r.(status := rep.status, summary := summary,
       branch := if rep.branch != "" then rep.branch else r.branch,
       commit := if rep.commit != "" && !r.kind.Merge? then rep.commit else r.commit,
       verdict := if r.kind.Review? && rep.status.Succeeded?
                  then (if summary.Summary? then summary.verdict else NoVerdict) else r.verdict,
       startedAt := if rep.status.Running? && r.startedAt.None? then Some(now) else r.startedAt,
       finishedAt := if rep.status.Terminal() then Some(now) else r.finishedAt,
       lease := if rep.status.Terminal() then None else r.lease)
  }

  const NOT_NEEDED := "not needed: the run ended"

  /** Answers the open questions of the Runs that ended: nobody waits for them any more. */
  function CloseQuestions(ds: seq<Decision>, ended: set<Id>): seq<Decision> {
    Map(ds, (d: Decision) =>
      if d.run.Some? && d.run.value in ended && d.answer == "" then d.(answer := NOT_NEEDED) else d)
  }

  function Report(s: State, agent: string, id: Id, rep: RunReport, tx: Tx): Outcome {
    var i := RunAt(s.runs, id);
    if agent == "" && (!rep.status.Canceled? || rep.summary.Summary? || rep.branch != "" || rep.commit != "")
    then RolledBack(Invalid)
    else if i == |s.runs| then RolledBack(NotFound)
    else
      var r := s.runs[i];
      if !OwnRun(agent, r) then RolledBack(Conflict)
      else if rep.status != r.status && !r.status.CanBecome(rep.status) then RolledBack(Conflict)
      else if r.status.Terminal() then RolledBack(Conflict)
      else
        var r' := Reported(r, rep, tx.now);
        var t := s.(runs := s.runs[i := r']);
        if rep.status.Terminal()
        then Committed(Advance(t.(decisions := CloseQuestions(s.decisions, {id})), r', tx))
        else Committed(t)
  }

  /** One pending Run goes to one agent, which leases it. */
  function Claimed(r: Run, agent: string, now: Time, until: Time): Run {
    r.(status := Running, worker := agent, lease := Some(until), attempts := r.attempts + 1,
       startedAt := if r.startedAt.None? then Some(now) else r.startedAt)
  }

  function Claim(s: State, agent: string, bot: Id, id: Id, until: Time, tx: Tx): Outcome {
    var i := RunAt(s.runs, id);
    if agent == "" then RolledBack(Invalid)
    else if i == |s.runs| || !s.runs[i].status.Pending? || s.project.archived || !(s.runs[i].bot in {None, Some(bot)})
    then RolledBack(NotFound)
    else Committed(s.(runs := s.runs[i := Claimed(s.runs[i], agent, tx.now, until)]))
  }

  function Heartbeat(s: State, agent: string, id: Id, until: Time): Outcome {
    var i := RunAt(s.runs, id);
    if agent == "" then RolledBack(Invalid)
    else if i == |s.runs| then RolledBack(NotFound)
    else if s.runs[i].worker != agent then RolledBack(Conflict)
    else if s.runs[i].status.Running? then Committed(s.(runs := s.runs[i := s.runs[i].(lease := Some(until))]))
    else Committed(s)
  }

  predicate Expired(r: Run, now: Time) { r.status.Running? && r.lease.Some? && r.lease.value < now }

  function Reaped(r: Run, picked: set<Id>, now: Time): Run {
    if r.id in picked && Expired(r, now) then r.(status := Failed, lease := None, finishedAt := Some(now)) else r
  }

  /** Fails picked Runs whose lease ran out. A transaction picks at most 100 and skips locked rows. */
  function Reap(s: State, picked: set<Id>, tx: Tx): State {
    var ended := set r | r in s.runs && r.id in picked && Expired(r, tx.now) :: r.id;
    s.(runs := Map(s.runs, (r: Run) => Reaped(r, picked, tx.now)), decisions := CloseQuestions(s.decisions, ended))
  }

  predicate WorksFor(r: Run, bot: Id) { r.bot == Some(bot) && (r.status.Pending? || r.status.Running?) }

  function Stopped(r: Run, bot: Id, now: Time): Run {
    if WorksFor(r, bot) then r.(status := Canceled, lease := None, finishedAt := Some(now)) else r
  }

  /** Takes a person or Bot out of the Project. A Bot's queued and running Runs stop. */
  function RemoveMember(s: State, id: Id, tx: Tx): Outcome {
    var i := MemberAt(s.members, id);
    if i == |s.members| then RolledBack(NotFound)
    else if s.project.archived then RolledBack(Conflict)
    else if s.members[i].left then Committed(s)
    else
      var t := s.(members := s.members[i := s.members[i].(left := true)]);
      if !s.members[i].isBot then Committed(t)
      else
        var ended := set r | r in s.runs && WorksFor(r, id) :: r.id;
        Committed(t.(runs := Map(s.runs, (r: Run) => Stopped(r, id, tx.now)),
            decisions := CloseQuestions(s.decisions, ended)))
  }

  function AskPermission(s: State, agent: string, id: Id, tx: Tx): Outcome {
    var i := RunAt(s.runs, id);
    if agent == "" then RolledBack(Invalid)
    else if i == |s.runs| then RolledBack(NotFound)
    else if s.runs[i].worker != agent || !s.runs[i].status.Running? then RolledBack(Conflict)
    else Committed(s.(decisions := s.decisions + [Decision(tx.newDecision, Permission, "", Some(id), "")]))
  }

  function Answer(s: State, id: Id, answer: string, tx: Tx): Outcome {
    var i := DecisionAt(s.decisions, id);
    if answer == "" then RolledBack(Invalid)
    else if i == |s.decisions| then RolledBack(NotFound)
    else if s.project.archived || s.decisions[i].answer != "" then RolledBack(Conflict)
    else
      var d := s.decisions[i].(answer := answer);
      var t := s.(decisions := s.decisions[i := d]);
      Committed(Do(t, OnDecision(t, d), tx))
  }

  function RecordCheck(s: State, name: string, status: CheckStatus, commit: string, tx: Tx): State {
    var c := Check(tx.newCheck, name, status, commit, tx.now, tx.now);
    var t := s.(checks := Insert(s.checks, c, CheckBefore));
    Do(t, OnCheck(t, c), tx)
  }

  function UpdateCheck(s: State, id: Id, status: CheckStatus, tx: Tx): Outcome {
    var i := CheckAt(s.checks, id);
    if i == |s.checks| then RolledBack(NotFound)
    else
      var c := s.checks[i].(status := status, updatedAt := tx.now);
      var t := s.(checks := s.checks[i := c]);
      Committed(Do(t, OnCheck(t, c), tx))
  }

  /** Queues a Run of the Task; without a Bot, the Task's assignee if that is one. */
  function RequestRun(s: State, bot: Option<Id>, kind: Option<RunKind>, tx: Tx): Outcome {
    if kind == Some(Merge) then RolledBack(Invalid)
    else if s.project.archived then RolledBack(Conflict)
    else
      var a := if s.task.assignee.Some? then MemberAt(s.members, s.task.assignee.value) else |s.members|;
      var chosen := if bot.None? && a < |s.members| && s.members[a].isBot then s.task.assignee else bot;
      var m := if chosen.Some? then MemberAt(s.members, chosen.value) else |s.members|;
      if chosen.Some? && (m == |s.members| || !s.members[m].isBot) then RolledBack(Invalid)
      else if kind == Some(Review) && s.task.branch == "" then RolledBack(Invalid)
      else Committed(CreateRun(s, if chosen.Some? then Some(s.members[m]) else None, kind, ByPeople, tx))
  }

  function HandTask(s: State, to: Id, autorun: bool, tx: Tx): Outcome {
    var m := MemberAt(s.members, to);
    if s.project.archived then RolledBack(Conflict)
    else if m == |s.members| then RolledBack(Invalid)
    else Committed(HandOff(s, s.members[m], autorun, ByPeople, tx))
  }

  function SetTaskStatus(s: State, status: TaskStatus): Outcome {
    if s.project.archived then RolledBack(Conflict) else Committed(s.(task := s.task.(status := status)))
  }

  datatype Op =
    | OpClaim(agent: string, bot: Id, run: Id, until: Time)
    | OpHeartbeat(agent: string, run: Id, until: Time)
    | OpReport(agent: string, run: Id, rep: RunReport)
    | OpReap(picked: set<Id>)
    | OpRemoveMember(member: Id)
    | OpAskPermission(agent: string, run: Id)
    | OpAnswer(decision: Id, answer: string)
    | OpRecordCheck(name: string, checkStatus: CheckStatus, commit: string)
    | OpUpdateCheck(check: Id, checkStatus: CheckStatus)
    | OpRequestRun(forBot: Option<Id>, kind: Option<RunKind>)
    | OpHandTask(to: Id, autorun: bool)
    | OpSetTaskStatus(taskStatus: TaskStatus)
    | OpUpdateProject(project: Project)
    | OpJoin(newMember: Member)

  function Perform(s: State, op: Op, tx: Tx): Outcome {
    match op
    case OpClaim(agent, bot, run, until) => Claim(s, agent, bot, run, until, tx)
    case OpHeartbeat(agent, run, until) => Heartbeat(s, agent, run, until)
    case OpReport(agent, run, rep) => Report(s, agent, run, rep, tx)
    case OpReap(picked) => Committed(Reap(s, picked, tx))
    case OpRemoveMember(member) => RemoveMember(s, member, tx)
    case OpAskPermission(agent, run) => AskPermission(s, agent, run, tx)
    case OpAnswer(decision, answer) => Answer(s, decision, answer, tx)
    case OpRecordCheck(name, status, commit) => Committed(RecordCheck(s, name, status, commit, tx))
    case OpUpdateCheck(check, status) => UpdateCheck(s, check, status, tx)
    case OpRequestRun(forBot, kind) => RequestRun(s, forBot, kind, tx)
    case OpHandTask(to, autorun) => HandTask(s, to, autorun, tx)
    case OpSetTaskStatus(status) => SetTaskStatus(s, status)
    case OpUpdateProject(project) => Committed(s.(project := project))
    case OpJoin(m) => Committed(s.(members := s.members + [m]))
  }

  /** One transaction: it commits or leaves nothing. An id already in use violates a primary key and rolls back. */
  function Step(s: State, op: Op, tx: Tx): State {
    if !Fresh(s, tx) then s
    else match Perform(s, op, tx)
      case Committed(t) => t
      case RolledBack(_) => s
  }

  datatype Input = Input(op: Op, tx: Tx)

  /** The state after a whole script of transactions. */
  function After(s: State, script: seq<Input>): State {
    if script == [] then s
    else
      var last := script[|script| - 1];
      Step(After(s, script[..|script| - 1]), last.op, last.tx)
  }
}
