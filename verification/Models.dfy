/** The records of one Task: its Runs, Decisions and CI checks, and the tables that say how a Run may move. */
module Models {
  import opened Lists

  type Id = nat
  type Time = int

  datatype RunStatus = Pending | Running | Succeeded | Failed | Canceled {
    /** No further transition is allowed. */
    predicate Terminal() {
      Succeeded? || Failed? || Canceled?
    }

    predicate CanBecome(next: RunStatus) {
      match this
      case Pending => next.Running? || next.Failed? || next.Canceled?
      case Running => next.Succeeded? || next.Failed? || next.Canceled?
      case _ => false
    }
  }

  datatype RunKind = Plan | Build | Review | Merge

  datatype Verdict = NoVerdict | Approve | Changes

  /** A Run's summary text, of which only the verdict read from its last VERDICT line matters here. */
  datatype Summary = NoSummary | Summary(verdict: Verdict)

  /** Who asked for a Run: a person, the autopilot moving the Task on, or the autopilot sending
      work back to the Builder. A history variable: the table has no such column. */
  datatype Origin = ByPeople | ByAutopilot | SentBack

  /** A Run. `worker` is "" until it is claimed; `branch` and `commit` are "" until reported. */
  datatype Run = Run(
    id: Id, kind: RunKind, status: RunStatus, bot: Option<Id>, worker: string, lease: Option<Time>, attempts: nat,
    summary: Summary, branch: string, commit: string, verdict: Verdict,
    createdAt: Time, startedAt: Option<Time>, finishedAt: Option<Time>, origin: Origin)

  datatype TaskStatus = Open | InProgress | Done | Dropped

  datatype Task = Task(status: TaskStatus, assignee: Option<Id>, branch: string, head: string, mergedAt: Option<Time>)

  datatype Action = NoAction | MergeIt | Permission

  /** A question. `answer` is "" until someone answers it. */
  datatype Decision = Decision(id: Id, action: Action, commit: string, run: Option<Id>, answer: string)

  datatype CheckStatus = CheckPending | CheckSuccess | CheckFailure

  /** A CI check on the Task. */
  datatype Check = Check(id: Id, name: string, status: CheckStatus, commit: string, createdAt: Time, updatedAt: Time)

  datatype Role = Scout | Builder | Sentry | OtherRole

  datatype Member = Member(id: Id, isBot: bool, role: Role, left: bool)

  datatype MergePolicy = AutoMerge | AskFirst

  datatype Project = Project(autoRun: bool, policy: MergePolicy, defaultBranch: string, archived: bool)

  function KindForRole(role: Role): RunKind {
    match role
    case Scout => Plan
    case Sentry => Review
    case _ => Build
  }

  predicate WorksOnTasks(role: Role) {
    role.Scout? || role.Builder? || role.Sentry?
  }

  /** ASCII lower case, which is all that commit ids and the word "merge" need. */
  function Lower(s: string): (t: string)
    ensures |t| == |s|
  {
    Map(s, c => if 'A' <= c <= 'Z' then (c as int + 32) as char else c)
  }

  predicate EqualFold(a: string, b: string) {
    Lower(a) == Lower(b)
  }

  /** Runs are listed newest first, and by id among Runs created together. */
  predicate RunBefore(a: Run, b: Run) {
    a.createdAt > b.createdAt || (a.createdAt == b.createdAt && a.id < b.id)
  }

  predicate CheckBefore(a: Check, b: Check) {
    a.createdAt > b.createdAt || (a.createdAt == b.createdAt && a.id < b.id)
  }
}
