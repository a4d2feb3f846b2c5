/** Left to itself, the autopilot stops: with people and CI silent only a bounded number of Runs ever starts. */
module TaskQuiet {
  import opened Lists
  import opened Models
  import opened TaskMachine
  import opened TaskShape
  import opened TaskLaws

  /** Nobody but the workers and the reaper acts. */
  predicate Quiet(op: Op) {
    op.OpClaim? || op.OpHeartbeat? || op.OpAskPermission? || op.OpReap? || (op.OpReport? && op.agent != "")
  }

  predicate Busy(r: Run) { !r.status.Terminal() }

  /** How many more Runs an unfinished Run of this kind can lead to when b builds have succeeded. */
  function Ahead(kind: RunKind, b: nat): nat {
    match kind
    case Merge => 0
    case Review => 1 + if b < MAX_ROUNDS then 2 * (MAX_ROUNDS - b) else 0
    case Build => if b < MAX_ROUNDS then 2 * (MAX_ROUNDS - b) else 2
    case Plan => 1 + if b < MAX_ROUNDS then 2 * (MAX_ROUNDS - b) else 2
  }

  function StillToCome(s: State): nat {
    match First(s.runs, Busy)
    case None => 0
    case Some(r) => Ahead(r.kind, Count(s.runs, DoneBuild))
  }

  /** The termination measure: Runs still to come, then how far the one under way has got. */
  function Measure(s: State): nat {
    match First(s.runs, Busy)
    case None => 0
    case Some(r) => 3 * StillToCome(s) + if r.status.Pending? then 2 else 1
  }

  ghost predicate OneAtATime(s: State) {
    RunsOk(s.runs) && Count(s.runs, Busy) <= 1
  }

  predicate SameStatuses(s: State, s': State) {
    |s'.runs| == |s.runs| && forall i :: 0 <= i < |s.runs| ==> s'.runs[i].status == s.runs[i].status
  }

  /** A step either changes no status, or brings the end closer. */
  ghost predicate Progress(s: State, s': State) {
    && OneAtATime(s')
    && |s'.runs| + StillToCome(s') <= |s.runs| + StillToCome(s)
    && (Measure(s') < Measure(s) || (SameStatuses(s, s') && Measure(s') == Measure(s)))
  }

  lemma OnlyBusy(runs: seq<Run>, i: nat)
    requires i < |runs| && Busy(runs[i]) && Count(runs, Busy) <= 1
    ensures First(runs, Busy) == Some(runs[i])
  {
    forall j | 0 <= j < i
      ensures !Busy(runs[j])
    {
      if Busy(runs[j]) {
        CountAtMostOne(runs, Busy, i, j);
      }
    }
    FirstAt(runs, Busy, i);
  }

  lemma NothingBusy(runs: seq<Run>, i: nat)
    requires i < |runs| && !Busy(runs[i]) && forall j :: 0 <= j < |runs| && j != i ==> !Busy(runs[j])
    ensures First(runs, Busy) == None && Count(runs, Busy) == 0
  {
    CountZero(runs, Busy);
  }

  /** Replacing the only unfinished Run by a row that did not succeed as a build leaves the build count alone. */
  lemma SameBuilds(runs: seq<Run>, i: nat, r: Run)
    requires i < |runs| && !DoneBuild(runs[i])
    ensures Count(runs[i := r], DoneBuild) == Count(runs, DoneBuild) + if DoneBuild(r) then 1 else 0
  {
    assert runs == runs[..i] + ([runs[i]] + runs[i + 1..]);
    assert runs[i := r] == runs[..i] + ([r] + runs[i + 1..]);
    CountConcat(runs[..i], [runs[i]] + runs[i + 1..], DoneBuild);
    CountConcat(runs[..i], [r] + runs[i + 1..], DoneBuild);
    CountConcat([runs[i]], runs[i + 1..], DoneBuild);
    CountConcat([r], runs[i + 1..], DoneBuild);
  }

  lemma OthersIdle(runs: seq<Run>, i: nat)
    requires i < |runs| && Busy(runs[i]) && Count(runs, Busy) <= 1
    ensures forall j :: 0 <= j < |runs| && j != i ==> !Busy(runs[j])
  {
    forall j | 0 <= j < |runs| && j != i
      ensures !Busy(runs[j])
    {
      if Busy(runs[j]) {
        CountAtMostOne(runs, Busy, i, j);
      }
    }
  }

  /** The one unfinished Run changes but stays unfinished. */
  lemma GoesOn(s: State, i: nat, r: Run, s': State)
    requires OneAtATime(s) && i < |s.runs| && Busy(s.runs[i]) && Busy(r) && Evolves(s.runs[i], r)
    requires s'.runs == s.runs[i := r] && (r.status == s.runs[i].status || r.status.Running?)
    ensures Progress(s, s')
  {
    RunsStayOk(s.runs, s'.runs);
    CountPointwise(s.runs, s'.runs, Busy, Busy);
    OnlyBusy(s.runs, i);
    OnlyBusy(s'.runs, i);
    SameBuilds(s.runs, i, r);
  }

  /** Queueing a Run when nothing is unfinished makes it the one unfinished Run. */
  lemma OnlyQueued(runs: seq<Run>, q: Run)
    requires RunsOk(runs) && RunOk(q) && Busy(q) && Count(runs, Busy) == 0 && forall r :: r in runs ==> r.id != q.id
    ensures var ys := Insert(runs, q, RunBefore);
            RunsOk(ys) && Count(ys, Busy) == 1 && First(ys, Busy) == Some(q)
              && Count(ys, DoneBuild) == Count(runs, DoneBuild)
  {
    var ys := Insert(runs, q, RunBefore);
    QueuedStaysOk(runs, q);
    CountInsert(runs, q, RunBefore, Busy);
    CountInsert(runs, q, RunBefore, DoneBuild);
    var k :| 0 <= k < |ys| && ys[k] == q;
    OnlyBusy(ys, k);
  }

  /** When the one unfinished Run ends, nothing is left to do until something is queued. */
  lemma AllIdle(runs: seq<Run>, i: nat, r: Run)
    requires RunsOk(runs) && i < |runs| && Busy(runs[i]) && !Busy(r) && Evolves(runs[i], r) && Count(runs, Busy) <= 1
    ensures RunsOk(runs[i := r]) && Count(runs[i := r], Busy) == 0 && First(runs[i := r], Busy) == None
    ensures First(runs, Busy) == Some(runs[i])
  {
    OnlyBusy(runs, i);
    OthersIdle(runs, i);
    NothingBusy(runs[i := r], i);
    RunsStayOk(runs, runs[i := r]);
  }

  /** The one unfinished Run ends, and what follows it is smaller than what could have. */
  lemma Ends(s: State, i: nat, r: Run, queued: Option<Run>, s': State)
    requires OneAtATime(s) && i < |s.runs| && Busy(s.runs[i]) && !Busy(r) && Evolves(s.runs[i], r)
    requires s'.runs == (if queued.Some? then Insert(s.runs[i := r], queued.value, RunBefore) else s.runs[i := r])
    requires queued.Some? ==> queued.value.status.Pending? && RunOk(queued.value)
    requires queued.Some? ==> forall x :: x in s.runs[i := r] ==> x.id != queued.value.id
    requires queued.Some? ==>
               Ahead(queued.value.kind, Count(s.runs[i := r], DoneBuild))
                 < Ahead(s.runs[i].kind, Count(s.runs, DoneBuild))
    ensures Progress(s, s')
  {
    AllIdle(s.runs, i, r);
    if queued.Some? {
      OnlyQueued(s.runs[i := r], queued.value);
    }
  }

  /** What the autopilot queues after a success is always further along than the Run that succeeded. */
  lemma NextIsCloser(t: State, r: Run, b: nat, tx: Tx)
    requires r.status.Succeeded? && Count(t.runs, DoneBuild) == b + if r.kind.Build? then 1 else 0
    ensures var e := Additions(t, AfterRun(t, r), tx);
            e.queued.Some? ==> Ahead(e.queued.value.kind, Count(t.runs, DoneBuild)) < Ahead(r.kind, b)
  {}

  lemma QuietReport(s: State, agent: string, id: Id, rep: RunReport, tx: Tx)
    requires OneAtATime(s) && agent != "" && Fresh(s, tx) && Report(s, agent, id, rep, tx).Committed?
    ensures Progress(s, Report(s, agent, id, rep, tx).state)
  {
    var i := RunAt(s.runs, id);
    var r := s.runs[i];
    var r' := Reported(r, rep, tx.now);
    assert RunOk(r);
    ReportEvolves(r, agent, rep, tx.now);
    if rep.status.Terminal() {
      var t := s.(runs := s.runs[i := r'], decisions := CloseQuestions(s.decisions, {id}),
                  task := TaskAfter(s.project, s.task, r', tx.now));
      AfterRunSound(t, r');
      DoAdds(t, AfterRun(t, r'), tx);
      SameBuilds(s.runs, i, r');
      if r'.status.Succeeded? {
        NextIsCloser(t, r', Count(s.runs, DoneBuild), tx);
      }
      Ends(s, i, r', Additions(t, AfterRun(t, r'), tx).queued, Report(s, agent, id, rep, tx).state);
    } else {
      GoesOn(s, i, r', Report(s, agent, id, rep, tx).state);
    }
  }

  lemma QuietReap(s: State, picked: set<Id>, tx: Tx)
    requires OneAtATime(s) && Fresh(s, tx)
    ensures Progress(s, Reap(s, picked, tx))
  {
    var s' := Reap(s, picked, tx);
    if i :| 0 <= i < |s.runs| && s.runs[i].id in picked && Expired(s.runs[i], tx.now) {
      OthersIdle(s.runs, i);
      assert s.runs[i] in s.runs && RunOk(s.runs[i]);
      assert s'.runs == s.runs[i := s'.runs[i]];
      Ends(s, i, s'.runs[i], None, s');
    } else {
      assert s'.runs == s.runs;
    }
  }

  lemma QuietStep(s: State, op: Op, tx: Tx)
    requires OneAtATime(s) && Quiet(op)
    ensures Progress(s, Step(s, op, tx))
  {
    if Fresh(s, tx) && Perform(s, op, tx).Committed? {
      var t := Perform(s, op, tx).state;
      match op
      case OpClaim(agent, bot, id, until) =>
        assert RunOk(s.runs[RunAt(s.runs, id)]);
        GoesOn(s, RunAt(s.runs, id), t.runs[RunAt(s.runs, id)], t);
      case OpHeartbeat(agent, id, until) =>
        if s.runs[RunAt(s.runs, id)].status.Running? {
          GoesOn(s, RunAt(s.runs, id), t.runs[RunAt(s.runs, id)], t);
        }
      case OpAskPermission(agent, id) => assert t.runs == s.runs;
      case OpReap(picked) => QuietReap(s, picked, tx);
      case OpReport(agent, id, rep) => QuietReport(s, agent, id, rep, tx);
    }
  }

  ghost predicate AllQuiet(script: seq<Input>) {
    forall n :: 0 <= n < |script| ==> Quiet(script[n].op)
  }

  /** How many transactions of a script changed some Run's status. */
  function Changes(s: State, script: seq<Input>): nat {
    if script == [] then 0
    else
      var n := |script| - 1;
      Changes(s, script[..n]) + if SameStatuses(After(s, script[..n]), After(s, script)) then 0 else 1
  }

  lemma {:induction false} QuietScript(s: State, script: seq<Input>)
    requires OneAtATime(s) && AllQuiet(script)
    ensures OneAtATime(After(s, script))
    ensures |After(s, script).runs| + StillToCome(After(s, script)) <= |s.runs| + StillToCome(s)
    ensures Changes(s, script) + Measure(After(s, script)) <= Measure(s)
  {
    if script != [] {
      var n := |script| - 1;
      QuietScript(s, script[..n]);
      QuietStep(After(s, script[..n]), script[n].op, script[n].tx);
    }
  }

  /** Started from one queued plan, whatever workers claim, report, drop or let expire, at most 2 * MAX_ROUNDS + 2
      Runs ever exist, and after 3 * (2 * MAX_ROUNDS + 1) + 2 changes of status nothing moves any more. */
  lemma AutopilotStops(s: State, plan: Run, script: seq<Input>)
    requires s.runs == [plan] && plan.kind.Plan? && plan.status.Pending? && RunOk(plan) && AllQuiet(script)
    ensures |After(s, script).runs| <= 2 * MAX_ROUNDS + 2
    ensures Changes(s, script) <= 3 * (2 * MAX_ROUNDS + 1) + 2
  {
    OnlyBusy(s.runs, 0);
    assert Count(s.runs, DoneBuild) == 0;
    QuietScript(s, script);
  }
}
