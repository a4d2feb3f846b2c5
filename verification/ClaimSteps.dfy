/** Agents claiming Runs at the same time, statement by statement: a claim looks at the queue, takes a row, recounts
    under its Project's lock, and commits or rolls back. */
module ClaimSteps {
  import opened Lists

  datatype Status = Pending | Running | Done

  /** A Run's row; its id is its place in the table. */
  datatype Row = Row(project: nat, bot: Option<nat>, createdAt: nat, status: Status, worker: Option<string>)

  /** maxRuns 0 means no limit. */
  datatype Project = Project(maxRuns: nat, archived: bool)

  datatype Db = Db(runs: seq<Row>, projects: map<nat, Project>)

  /** An open transaction. `view` is what its UPDATE saw when it started. */
  datatype Claim =
    | Looked(agent: string, bot: nat, view: Db)
    | Took(agent: string, bot: nat, view: Db, run: nat)
    | Counted(agent: string, bot: nat, view: Db, run: nat, maxRuns: nat, running: nat)

  /** db: what is committed. given: history, every claim committed. */
  datatype Sys = Sys(db: Db, open: map<nat, Claim>, given: seq<(nat, string)>)

  predicate Busy(project: nat, r: Row) {
    r.project == project && r.status == Running
  }

  /** How many of the Project's Runs are running. */
  function Load(runs: seq<Row>, project: nat): nat {
    if runs == [] then 0
    else Load(runs[..|runs| - 1], project) + if Busy(project, runs[|runs| - 1]) then 1 else 0
  }

  function MaxRuns(db: Db, project: nat): nat {
    if project in db.projects then db.projects[project].maxRuns else 0
  }

  // --- the row a claim takes ---

  predicate Eligible(view: Db, bot: nat, i: nat)
    requires i < |view.runs|
  {
    var r := view.runs[i];
    && r.status == Pending
    && r.project in view.projects && !view.projects[r.project].archived
    && (r.bot == Some(bot) || r.bot == None)
    && (MaxRuns(view, r.project) == 0 || Load(view.runs, r.project) < MaxRuns(view, r.project))
  }

  /** The Project with the fewest Runs going is served first, then the oldest Run. */
  predicate Before(view: Db, i: nat, j: nat)
    requires i < |view.runs| && j < |view.runs|
  {
    var a := view.runs[i];
    var b := view.runs[j];
    var x := Load(view.runs, a.project);
    var y := Load(view.runs, b.project);
    x < y || (x == y && (a.createdAt < b.createdAt || (a.createdAt == b.createdAt && i < j)))
  }

  predicate RowLocked(s: Sys, i: nat) {
    exists t :: t in s.open && !s.open[t].Looked? && s.open[t].run == i
  }

  /** Rows that changed or that another claim holds are skipped. */
  predicate Free(s: Sys, i: nat) {
    i < |s.db.runs| && s.db.runs[i].status == Pending && !RowLocked(s, i)
  }

  predicate Takeable(s: Sys, view: Db, bot: nat, i: nat) {
    i < |view.runs| && Eligible(view, bot, i) && Free(s, i)
  }

  /** The first takeable row, among the first n. */
  function FirstInLine(s: Sys, view: Db, bot: nat, n: nat): (r: Option<nat>)
    requires n <= |view.runs|
    ensures r.Some? ==> r.value < n
  {
    if n == 0 then None
    else
      var r := FirstInLine(s, view, bot, n - 1);
      if !Takeable(s, view, bot, n - 1) then r
      else if r.Some? && Before(view, r.value, n - 1) then r
      else Some(n - 1)
  }

  // --- the statements ---

  function Look(s: Sys, t: nat, agent: string, bot: nat): Sys {
    if t in s.open then s else s.(open := s.open[t := Looked(agent, bot, s.db)])
  }

  function Close(s: Sys, t: nat): Sys {
    s.(open := s.open - {t})
  }

  /** Nothing to take ends the claim. */
  function Take(s: Sys, t: nat): Sys {
    if t !in s.open || !s.open[t].Looked? then s
    else
      var c := s.open[t];
      var r := FirstInLine(s, c.view, c.bot, |c.view.runs|);
      if r == None then Close(s, t) else s.(open := s.open[t := Took(c.agent, c.bot, c.view, r.value)])
  }

  function Given(r: Row, agent: string): Row {
    r.(status := Running, worker := Some(agent))
  }

  predicate ProjectLocked(s: Sys, project: nat) {
    exists t :: t in s.open && s.open[t].Counted?
      && s.open[t].run < |s.db.runs| && s.db.runs[s.open[t].run].project == project
  }

  /** A transaction sees the committed rows and its own change. */
  function OwnRuns(s: Sys, c: Claim): seq<Row>
    requires !c.Looked? && c.run < |s.db.runs|
  {
    s.db.runs[c.run := Given(s.db.runs[c.run], c.agent)]
  }

  /** Waits while another transaction holds the Project's lock. */
  function Recount(s: Sys, t: nat): Sys {
    if t !in s.open || !s.open[t].Took? || s.open[t].run >= |s.db.runs| then s
    else
      var c := s.open[t];
      var p := s.db.runs[c.run].project;
      if ProjectLocked(s, p) then s
      else s.(open := s.open[t := Counted(c.agent, c.bot, c.view, c.run, MaxRuns(s.db, p), Load(OwnRuns(s, c), p))])
  }

  predicate OverLimit(c: Claim)
    requires c.Counted?
  {
    c.maxRuns > 0 && c.running > c.maxRuns
  }

  function Finish(s: Sys, t: nat): Sys {
    if t !in s.open || !s.open[t].Counted? || s.open[t].run >= |s.db.runs| then s
    else
      var c := s.open[t];
      if OverLimit(c) then Close(s, t)
      else Close(s, t).(db := s.db.(runs := OwnRuns(s, c)), given := s.given + [(c.run, c.agent)])
  }

  /** A Run reported, reaped, canceled or stopped: its row must not be held by a claim. */
  function End(s: Sys, i: nat): Sys {
    if i < |s.db.runs| && !RowLocked(s, i)
    then s.(db := s.db.(runs := s.db.runs[i := s.db.runs[i].(status := Done)]))
    else s
  }

  function Configure(s: Sys, project: nat, p: Project): Sys {
    if ProjectLocked(s, project) then s else s.(db := s.db.(projects := s.db.projects[project := p]))
  }

  datatype Step =
    | Looks(tx: nat, agent: string, bot: nat)
    | Takes(tx: nat)
    | Recounts(tx: nat)
    | Finishes(tx: nat)
    | Aborts(tx: nat)
    | Queues(project: nat, waitsFor: Option<nat>, createdAt: nat)
    | Ends(run: nat)
    | Configures(project: nat, to: Project)

  function Next(s: Sys, step: Step): Sys {
    match step
    case Looks(t, agent, bot) => Look(s, t, agent, bot)
    case Takes(t) => Take(s, t)
    case Recounts(t) => Recount(s, t)
    case Finishes(t) => Finish(s, t)
    case Aborts(t) => Close(s, t)
    case Queues(p, bot, at) => s.(db := s.db.(runs := s.db.runs + [Row(p, bot, at, Pending, None)]))
    case Ends(i) => End(s, i)
    case Configures(p, to) => Configure(s, p, to)
  }

  function After(s: Sys, script: seq<Step>): Sys {
    if script == [] then s else Next(After(s, script[..|script| - 1]), script[|script| - 1])
  }

  ghost predicate Initial(s: Sys) {
    && s.open == map[] && s.given == []
    && forall i :: 0 <= i < |s.db.runs| ==> s.db.runs[i].status == Pending && s.db.runs[i].worker == None
  }
}
