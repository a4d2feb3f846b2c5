/** One description of what any transaction does to the rows: existing Runs move along their lifecycle,
    questions get answered, and at most one Run is queued or one question asked. */
module TaskShape {
  import opened Lists
  import opened Models
  import opened TaskMachine

  /** What the columns of a Run say together. */
  predicate RunOk(r: Run) {
    match r.status
    case Pending => r.worker == "" && r.lease.None? && r.attempts == 0 && r.startedAt.None? && r.finishedAt.None?
    case Running => r.worker != "" && r.lease.Some? && r.attempts == 1 && r.startedAt.Some? && r.finishedAt.None?
    case _ =>
      && r.lease.None? && r.finishedAt.Some? && r.attempts <= 1
      && (r.worker == "" <==> r.attempts == 0)
      && (r.status.Succeeded? ==> r.worker != "")
  }

  /** A row keeps its identity; a finished row keeps everything; a claimed row keeps its worker. */
  predicate Evolves(r: Run, r': Run) {
    r' == r ||
    (&& !r.status.Terminal()
     && r'.id == r.id && r'.kind == r.kind && r'.bot == r.bot && r'.createdAt == r.createdAt && r'.origin == r.origin
     && (r'.status == r.status || r.status.CanBecome(r'.status))
     && (r.worker != "" ==> r'.worker == r.worker)
     && r.attempts <= r'.attempts
     && (r.kind.Merge? ==> r'.commit == r.commit)
     && (RunOk(r) ==> RunOk(r')))
  }

  ghost predicate RunsMove(a: seq<Run>, b: seq<Run>) {
    |a| == |b| && forall i :: 0 <= i < |a| ==> Evolves(a[i], b[i])
  }

  /** An answer is given once. */
  predicate Settles(d: Decision, d': Decision) {
    d' == d || (d.answer == "" && d'.answer != "" && d' == d.(answer := d'.answer))
  }

  ghost predicate DecisionsMove(a: seq<Decision>, b: seq<Decision>) {
    |a| == |b| && forall i :: 0 <= i < |a| ==> Settles(a[i], b[i])
  }

  datatype Effect = Effect(mid: State, queued: Option<Run>, asked: Option<Decision>)

  predicate Landed(r: Run) { r.kind.Merge? && r.status.Succeeded? }

  /** The conditions under which a merge may be queued. */
  ghost predicate MayLand(s: State) {
    && s.task.mergedAt.None? && s.task.branch != ""
    && forall r :: r in s.runs ==> !ActiveMerge(r)
  }

  /** Autopilot's own reasons to merge: the newest review approves the latest work and CI agrees. */
  ghost predicate CleanToLand(s: State) {
    && Approved(s)
    && CiState(s.checks, s.task.head, LastBuild(s)) == CheckSuccess
    && s.project.policy.AutoMerge?
  }

  /** A person's reason to merge: the answer "merge" about this very commit, or about no commit in particular. */
  predicate AgreesTo(d: Decision, commit: string) {
    SaysMerge(d) && (d.commit == commit || d.commit == "")
  }

  ghost predicate WellAsked(mid: State, d: Decision, tx: Tx) {
    && d.id == tx.newDecision && d.answer == ""
    && match d.action
       case MergeIt => d.run.None? && d.commit == mid.task.head && forall x :: x in mid.decisions ==> !OpenAsk(x)
       case Permission => d.run.Some? && exists r :: r in mid.runs && r.id == d.run.value && r.status.Running?
       case NoAction => false
  }

  ghost predicate WellQueued(mid: State, r: Run, tx: Tx) {
    && r.id == tx.newRun && r.createdAt == tx.now && r.status.Pending? && RunOk(r)
    && (r.kind.Merge? ==>
          && MayLand(mid) && r.commit == mid.task.head
          && (CleanToLand(mid) || exists d :: d in mid.decisions && AgreesTo(d, r.commit)))
    && (r.kind.Build? && r.origin.SentBack? ==>
          Count(mid.runs, DoneBuild) < MAX_ROUNDS && forall x :: x in mid.runs ==> !ActiveBuild(x))
  }

  /** The first half: the rows that were there move. A Run that ends leaves no open question behind,
      and the merge time is set exactly when a merge Run succeeds. */
  ghost predicate Moved(s: State, mid: State) {
    && RunsMove(s.runs, mid.runs) && DecisionsMove(s.decisions, mid.decisions)
    && (forall i :: 0 <= i < |s.runs| && !s.runs[i].status.Terminal() && mid.runs[i].status.Terminal() ==>
          forall d :: d in mid.decisions && d.run == Some(s.runs[i].id) ==> d.answer != "")
    && (mid.task.mergedAt.Some? <==>
          s.task.mergedAt.Some? || exists i :: 0 <= i < |s.runs| && !Landed(s.runs[i]) && Landed(mid.runs[i]))
  }

  /** The second half of the shape: what is added to the moved rows. */
  ghost predicate Adds(mid: State, e: Effect, s': State, tx: Tx) {
    && e.mid == mid
    && s'.runs == (if e.queued.Some? then Insert(mid.runs, e.queued.value, RunBefore) else mid.runs)
    && s'.decisions == mid.decisions + (if e.asked.Some? then [e.asked.value] else [])
    && (e.queued.Some? ==> WellQueued(mid, e.queued.value, tx))
    && (e.asked.Some? ==> WellAsked(mid, e.asked.value, tx))
    && !(e.queued.Some? && e.asked.Some?)
    && s'.task.mergedAt == mid.task.mergedAt && s'.task.head == mid.task.head && s'.task.branch == mid.task.branch
    && s'.project == mid.project && s'.checks == mid.checks
  }

  ghost predicate Shaped(s: State, e: Effect, s': State, tx: Tx) {
    Moved(s, e.mid) && Adds(e.mid, e, s', tx)
  }

  // --- what the autopilot decides is sound ---

  ghost predicate SoundMove(s: State, m: Move) {
    match m
    case Rest => true
    case StartBot(to, origin) =>
      origin.SentBack? ==>
        Count(s.runs, DoneBuild) < MAX_ROUNDS && forall r :: r in s.runs ==> !ActiveBuild(r)
    case Land => MayLand(s) && (CleanToLand(s) || exists d :: d in s.decisions && AgreesTo(d, s.task.head))
    case AskPeople => true
  }

  lemma AfterRunSound(s: State, r: Run)
    ensures SoundMove(s, AfterRun(s, r))
  {}

  lemma OnCheckSound(s: State, c: Check)
    ensures SoundMove(s, OnCheck(s, c))
  {}

  lemma OnDecisionSound(s: State, d: Decision)
    requires d in s.decisions
    ensures SoundMove(s, OnDecision(s, d))
  {
    if OnDecision(s, d).Land? {
      assert AgreesTo(d, s.task.head);
    }
  }

  /** What doing a move adds. */
  ghost function Additions(mid: State, m: Move, tx: Tx): Effect {
    match m
    case Rest => Effect(mid, None, None)
    case StartBot(to, origin) => HandOffEffect(mid, to, true, origin, tx)
    case Land => Effect(mid, Some(NewRun(Merge, None, mid.task.head, ByAutopilot, tx)), None)
    case AskPeople =>
      if exists d :: d in mid.decisions && OpenAsk(d) then Effect(mid, None, None)
      else Effect(mid, None, Some(Decision(tx.newDecision, MergeIt, mid.task.head, None, "")))
  }

  ghost function HandOffEffect(mid: State, to: Member, autorun: bool, origin: Origin, tx: Tx): Effect {
    if to.isBot && WorksOnTasks(to.role) && (autorun || mid.project.autoRun)
       && !(to.role.Sentry? && mid.task.branch == "")
    then Effect(mid, Some(NewRun(KindForRole(to.role), Some(to.id), "", origin, tx)), None)
    else Effect(mid, None, None)
  }

  lemma DoAdds(mid: State, m: Move, tx: Tx)
    requires SoundMove(mid, m)
    ensures Adds(mid, Additions(mid, m, tx), Do(mid, m, tx), tx)
  {}

  lemma DoShaped(s: State, mid: State, m: Move, tx: Tx)
    requires Moved(s, mid) && SoundMove(mid, m)
    ensures Shaped(s, Additions(mid, m, tx), Do(mid, m, tx), tx)
  {
    DoAdds(mid, m, tx);
  }

  // --- the operations ---

  lemma Untouched(s: State, t: State)
    requires t.runs == s.runs && t.decisions == s.decisions && t.task.mergedAt == s.task.mergedAt
    ensures Moved(s, t)
  {}

  lemma OneRunMoves(s: State, i: nat, r: Run)
    requires i < |s.runs| && Evolves(s.runs[i], r) && !r.status.Terminal()
    ensures Moved(s, s.(runs := s.runs[i := r]))
  {}

  lemma Closes(ds: seq<Decision>, ended: set<Id>)
    ensures DecisionsMove(ds, CloseQuestions(ds, ended))
    ensures forall d :: d in CloseQuestions(ds, ended) && d.run.Some? && d.run.value in ended ==> d.answer != ""
  {}

  lemma FinishMoves(s: State, i: nat, r: Run, now: Time)
    requires i < |s.runs| && Evolves(s.runs[i], r) && !s.runs[i].status.Terminal() && r.status.Terminal()
    ensures Moved(s, s.(runs := s.runs[i := r], decisions := CloseQuestions(s.decisions, {r.id}),
                        task := TaskAfter(s.project, s.task, r, now)))
  {
    Closes(s.decisions, {r.id});
    var mid := s.(runs := s.runs[i := r], decisions := CloseQuestions(s.decisions, {r.id}),
                  task := TaskAfter(s.project, s.task, r, now));
    if Landed(r) {
      assert Landed(mid.runs[i]) && !Landed(s.runs[i]);
    }
  }

  lemma EndsMove(s: State, t: State, f: Run -> Run, ended: set<Id>)
    requires t.runs == Map(s.runs, f) && t.decisions == CloseQuestions(s.decisions, ended) && t.task == s.task
    requires forall r :: r in s.runs ==> Evolves(r, f(r)) && !(Landed(f(r)) && !Landed(r))
    requires forall r :: r in s.runs && !r.status.Terminal() && f(r).status.Terminal() ==> r.id in ended
    ensures Moved(s, t)
  {
    Closes(s.decisions, ended);
  }

  lemma ReportShaped(s: State, agent: string, id: Id, rep: RunReport, tx: Tx) returns (e: Effect)
    requires Report(s, agent, id, rep, tx).Committed?
    ensures Shaped(s, e, Report(s, agent, id, rep, tx).state, tx)
  {
    var i := RunAt(s.runs, id);
    var r := s.runs[i];
    var r' := Reported(r, rep, tx.now);
    ReportEvolves(r, agent, rep, tx.now);
    if rep.status.Terminal() {
      var t := s.(runs := s.runs[i := r'], decisions := CloseQuestions(s.decisions, {id}),
                  task := TaskAfter(s.project, s.task, r', tx.now));
      FinishMoves(s, i, r', tx.now);
      AfterRunSound(t, r');
      DoShaped(s, t, AfterRun(t, r'), tx);
      e := Additions(t, AfterRun(t, r'), tx);
    } else {
      OneRunMoves(s, i, r');
      e := Effect(s.(runs := s.runs[i := r']), None, None);
    }
  }

  /** A report that the owner check and the transition table let through keeps the row sound. */
  lemma ReportEvolves(r: Run, agent: string, rep: RunReport, now: Time)
    requires OwnRun(agent, r) && !r.status.Terminal()
    requires agent == "" ==> rep.status.Canceled?
    requires rep.status == r.status || r.status.CanBecome(rep.status)
    ensures Evolves(r, Reported(r, rep, now))
  {}

  lemma ReapShaped(s: State, picked: set<Id>, tx: Tx) returns (e: Effect)
    ensures Shaped(s, e, Reap(s, picked, tx), tx)
  {
    var ended := set r | r in s.runs && r.id in picked && Expired(r, tx.now) :: r.id;
    EndsMove(s, Reap(s, picked, tx), (r: Run) => Reaped(r, picked, tx.now), ended);
    e := Effect(Reap(s, picked, tx), None, None);
  }

  lemma RemoveShaped(s: State, id: Id, tx: Tx) returns (e: Effect)
    requires RemoveMember(s, id, tx).Committed?
    ensures Shaped(s, e, RemoveMember(s, id, tx).state, tx)
  {
    var t := RemoveMember(s, id, tx).state;
    var i := MemberAt(s.members, id);
    if s.members[i].left || !s.members[i].isBot {
      Untouched(s, t);
    } else {
      var ended := set r | r in s.runs && WorksFor(r, id) :: r.id;
      EndsMove(s, t, (r: Run) => Stopped(r, id, tx.now), ended);
    }
    e := Effect(t, None, None);
  }

  lemma AnswerShaped(s: State, id: Id, answer: string, tx: Tx) returns (e: Effect)
    requires Answer(s, id, answer, tx).Committed?
    ensures Shaped(s, e, Answer(s, id, answer, tx).state, tx)
  {
    var i := DecisionAt(s.decisions, id);
    var d := s.decisions[i].(answer := answer);
    var t := s.(decisions := s.decisions[i := d]);
    assert t.decisions[i] == d;
    OnDecisionSound(t, d);
    DoShaped(s, t, OnDecision(t, d), tx);
    e := Additions(t, OnDecision(t, d), tx);
  }

  lemma CheckShaped(s: State, t: State, c: Check, tx: Tx) returns (e: Effect)
    requires t.runs == s.runs && t.decisions == s.decisions && t.task == s.task
    ensures Shaped(s, e, Do(t, OnCheck(t, c), tx), tx)
  {
    Untouched(s, t);
    OnCheckSound(t, c);
    DoShaped(s, t, OnCheck(t, c), tx);
    e := Additions(t, OnCheck(t, c), tx);
  }

  lemma SameRows(s: State, t: State, tx: Tx) returns (e: Effect)
    requires t.runs == s.runs && t.decisions == s.decisions && t.task.mergedAt == s.task.mergedAt
    ensures Shaped(s, e, t, tx) && e == Effect(t, None, None)
  {
    Untouched(s, t);
    e := Effect(t, None, None);
  }

  lemma RequestShaped(s: State, bot: Option<Id>, kind: Option<RunKind>, tx: Tx) returns (e: Effect)
    requires RequestRun(s, bot, kind, tx).Committed?
    ensures Shaped(s, e, RequestRun(s, bot, kind, tx).state, tx)
  {
    Untouched(s, s);
    var a := if s.task.assignee.Some? then MemberAt(s.members, s.task.assignee.value) else |s.members|;
    var chosen := if bot.None? && a < |s.members| && s.members[a].isBot then s.task.assignee else bot;
    var m := if chosen.Some? then Some(s.members[MemberAt(s.members, chosen.value)]) else None;
    var k := if kind.Some? then kind.value else if m.Some? then KindForRole(m.value.role) else Build;
    e := Effect(s, Some(NewRun(k, if m.Some? then Some(m.value.id) else None, "", ByPeople, tx)), None);
  }

  lemma ClaimShaped(s: State, agent: string, bot: Id, id: Id, until: Time, tx: Tx) returns (e: Effect)
    requires Claim(s, agent, bot, id, until, tx).Committed? && forall r :: r in s.runs ==> RunOk(r)
    ensures Shaped(s, e, Claim(s, agent, bot, id, until, tx).state, tx)
  {
    var i := RunAt(s.runs, id);
    var t := Claim(s, agent, bot, id, until, tx).state;
    assert RunOk(s.runs[i]);
    OneRunMoves(s, i, t.runs[i]);
    e := Effect(t, None, None);
  }

  lemma HeartbeatShaped(s: State, agent: string, id: Id, until: Time, tx: Tx) returns (e: Effect)
    requires Heartbeat(s, agent, id, until).Committed?
    ensures Shaped(s, e, Heartbeat(s, agent, id, until).state, tx)
  {
    var i := RunAt(s.runs, id);
    var t := Heartbeat(s, agent, id, until).state;
    if s.runs[i].status.Running? {
      OneRunMoves(s, i, t.runs[i]);
    } else {
      Untouched(s, t);
    }
    e := Effect(t, None, None);
  }

  lemma PermissionShaped(s: State, agent: string, id: Id, tx: Tx) returns (e: Effect)
    requires AskPermission(s, agent, id, tx).Committed?
    ensures Shaped(s, e, AskPermission(s, agent, id, tx).state, tx)
  {
    Untouched(s, s);
    e := Effect(s, None, Some(Decision(tx.newDecision, Permission, "", Some(id), "")));
    assert s.runs[RunAt(s.runs, id)] in s.runs;
  }

  lemma HandShaped(s: State, to: Id, autorun: bool, tx: Tx) returns (e: Effect)
    requires HandTask(s, to, autorun, tx).Committed?
    ensures Shaped(s, e, HandTask(s, to, autorun, tx).state, tx)
  {
    Untouched(s, s);
    e := HandOffEffect(s, s.members[MemberAt(s.members, to)], autorun, ByPeople, tx);
  }

  lemma RecordShaped(s: State, op: Op, tx: Tx) returns (e: Effect)
    requires op.OpRecordCheck? || op.OpUpdateCheck?
    requires Perform(s, op, tx).Committed?
    ensures Shaped(s, e, Perform(s, op, tx).state, tx)
  {
    if op.OpRecordCheck? {
      var c := Check(tx.newCheck, op.name, op.checkStatus, op.commit, tx.now, tx.now);
      e := CheckShaped(s, s.(checks := Insert(s.checks, c, CheckBefore)), c, tx);
    } else {
      var i := CheckAt(s.checks, op.check);
      var c := s.checks[i].(status := op.checkStatus, updatedAt := tx.now);
      e := CheckShaped(s, s.(checks := s.checks[i := c]), c, tx);
    }
  }

  /** Every transaction has the shape. */
  lemma PerformShaped(s: State, op: Op, tx: Tx) returns (e: Effect)
    requires Perform(s, op, tx).Committed? && forall r :: r in s.runs ==> RunOk(r)
    ensures Shaped(s, e, Perform(s, op, tx).state, tx)
  {
    match op
    case OpClaim(agent, bot, run, until) => e := ClaimShaped(s, agent, bot, run, until, tx);
    case OpHeartbeat(agent, run, until) => e := HeartbeatShaped(s, agent, run, until, tx);
    case OpReport(agent, run, rep) => e := ReportShaped(s, agent, run, rep, tx);
    case OpReap(picked) => e := ReapShaped(s, picked, tx);
    case OpRemoveMember(member) => e := RemoveShaped(s, member, tx);
    case OpAskPermission(agent, run) => e := PermissionShaped(s, agent, run, tx);
    case OpAnswer(decision, answer) => e := AnswerShaped(s, decision, answer, tx);
    case OpRecordCheck(_, _, _) => e := RecordShaped(s, op, tx);
    case OpUpdateCheck(_, _) => e := RecordShaped(s, op, tx);
    case OpRequestRun(bot, kind) => e := RequestShaped(s, bot, kind, tx);
    case OpHandTask(to, autorun) => e := HandShaped(s, to, autorun, tx);
    case OpSetTaskStatus(status) => e := SameRows(s, SetTaskStatus(s, status).state, tx);
    case OpUpdateProject(project) => e := SameRows(s, s.(project := project), tx);
    case OpJoin(m) => e := SameRows(s, s.(members := s.members + [m]), tx);
  }

  lemma StepShaped(s: State, op: Op, tx: Tx) returns (e: Effect)
    requires forall r :: r in s.runs ==> RunOk(r)
    ensures Shaped(s, e, Step(s, op, tx), tx)
    ensures !Fresh(s, tx) ==> e == Effect(s, None, None)
  {
    if Fresh(s, tx) && Perform(s, op, tx).Committed? {
      e := PerformShaped(s, op, tx);
    } else {
      e := SameRows(s, s, tx);
    }
  }

  /** A worker's final report, taken apart. */
  lemma ReportIs(s: State, op: Op, tx: Tx, r': Run, t: State, m: Move)
    requires op.OpReport? && op.agent != "" && op.rep.status.Terminal() && Fresh(s, tx)
    requires var i := RunAt(s.runs, op.run);
      && i < |s.runs| && OwnRun(op.agent, s.runs[i]) && s.runs[i].status.CanBecome(op.rep.status)
      && r' == Reported(s.runs[i], op.rep, tx.now)
      && t == s.(runs := s.runs[i := r'], decisions := CloseQuestions(s.decisions, {op.run}),
                 task := TaskAfter(s.project, s.task, r', tx.now))
    requires AfterRun(t, r') == m
    ensures Step(s, op, tx) == Do(t, m, tx)
  {}
}
