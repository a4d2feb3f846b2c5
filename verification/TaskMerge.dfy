/** What lands is what was approved. */
module TaskMerge {
  import opened Lists
  import opened Models
  import opened TaskMachine
  import opened TaskShape
  import opened TaskLaws

  ghost predicate HasRun(s: State, id: Id) {
    exists r :: r in s.runs && r.id == id
  }

  /** The transaction from a to b queued merge Run id for this commit, and had a reason to. */
  ghost predicate QueuesMerge(a: State, b: State, id: Id, commit: string) {
    && !HasRun(a, id)
    && (exists q :: q in b.runs && q.id == id && q.kind.Merge? && q.status.Pending? && q.commit == commit)
    && commit == b.task.head && b.task.branch != "" && b.task.mergedAt.None?
    && (CleanToLand(b) || exists d :: d in b.decisions && AgreesTo(d, commit))
  }

  /** Queueing a merge Run hides neither the newest build nor the newest review. */
  lemma StaysClean(mid: State, s': State, q: Run)
    requires CleanToLand(mid) && q.kind.Merge? && s'.runs == Insert(mid.runs, q, RunBefore)
    requires s'.task.head == mid.task.head && s'.project == mid.project && s'.checks == mid.checks
    ensures CleanToLand(s')
  {
    var k := Place(mid.runs, q, RunBefore);
    FirstSkips(mid.runs, k, q, DoneBuild);
    FirstSkips(mid.runs, k, q, DoneReview);
  }

  /** A merge Run that a step adds was queued for a reason. */
  lemma StepQueues(s: State, op: Op, tx: Tx, r: Run)
    requires RunsOk(s.runs) && r in Step(s, op, tx).runs && r.kind.Merge? && !HasRun(s, r.id)
    ensures QueuesMerge(s, Step(s, op, tx), r.id, r.commit)
  {
    var e := StepShaped(s, op, tx);
    var s' := Step(s, op, tx);
    RunsStayOk(s.runs, e.mid.runs);
    assert r !in e.mid.runs;
    assert e.queued == Some(r);
    if CleanToLand(e.mid) {
      StaysClean(e.mid, s', r);
    } else {
      var d :| d in e.mid.decisions && AgreesTo(d, r.commit);
      assert d in s'.decisions;
    }
  }

  /** In any run of the machine, each merge Run was queued by one transaction, for the commit it still carries,
      when the newest review approved the latest work and CI had passed, or when a person had answered "merge". */
  lemma {:induction false} EveryMergeHadAReason(s: State, script: seq<Input>, r: Run) returns (n: nat)
    requires NewTask(s) && r in After(s, script).runs && r.kind.Merge?
    ensures n < |script| && QueuesMerge(After(s, script[..n]), After(s, script[..n + 1]), r.id, r.commit)
  {
    var k := |script| - 1;
    var a := After(s, script[..k]);
    AlwaysInv(s, script[..k]);
    assert script[..k + 1] == script;
    if HasRun(a, r.id) {
      var r0 :| r0 in a.runs && r0.id == r.id;
      SameRow(a, script[k].op, script[k].tx, r0, r);
      n := EveryMergeHadAReason(s, script[..k], r0);
      assert script[..k][..n] == script[..n] && script[..k][..n + 1] == script[..n + 1];
    } else {
      n := k;
      StepQueues(a, script[k].op, script[k].tx, r);
    }
  }

  lemma OneRowPerId(runs: seq<Run>, a: Run, b: Run)
    requires RunsOk(runs) && a in runs && b in runs && a.id == b.id
    ensures a == b
  {
    var i :| 0 <= i < |runs| && runs[i] == a;
    var j :| 0 <= j < |runs| && runs[j] == b;
  }

  /** A row is found again by its id. */
  lemma SameRow(s: State, op: Op, tx: Tx, r0: Run, r: Run)
    requires Inv(s) && r0 in s.runs && r in Step(s, op, tx).runs && r0.id == r.id
    ensures Descends(r0, r)
  {
    var s' := Step(s, op, tx);
    StepKeeps(s, op, tx);
    StepKeepsRows(s, op, tx);
    assert Kept(s, s');
    var r1 :| r1 in s'.runs && Descends(r0, r1);
    OneRowPerId(s'.runs, r1, r);
  }

  // --- with workers that say what they worked on ---

  /** A worker that succeeds reports the commit of the branch it built or of what it reviewed, and reviews only a
      Task with a branch. Plans and merges report no commit. */
  predicate Careful(s: State, op: Op) {
    op.OpReport? && op.rep.status.Succeeded? && RunAt(s.runs, op.run) < |s.runs| ==>
      var r := s.runs[RunAt(s.runs, op.run)];
      && (r.kind.Build? && (op.rep.branch != "" || r.branch != "") ==> op.rep.commit != "")
      && (r.kind.Review? ==> op.rep.commit != "" && s.task.branch != "")
  }

  ghost predicate AllCareful(s: State, script: seq<Input>) {
    forall n :: 0 <= n < |script| ==> Careful(After(s, script[..n]), script[n].op)
  }

  /** Everything that could speak for a merge names a commit. */
  ghost predicate CommitsKnown(s: State) {
    && (s.task.branch != "" ==> s.task.head != "")
    && (forall v :: v in s.runs && DoneReview(v) ==> v.commit != "")
    && (forall d :: d in s.decisions && d.action.MergeIt? ==> d.commit != "")
  }

  lemma ClosedKeepCommits(ds: seq<Decision>, ended: set<Id>)
    requires forall d :: d in ds && d.action.MergeIt? ==> d.commit != ""
    ensures forall d :: d in CloseQuestions(ds, ended) && d.action.MergeIt? ==> d.commit != ""
  {}

  lemma DoKeepsCommits(t: State, m: Move, tx: Tx)
    requires CommitsKnown(t) && (m.AskPeople? ==> t.task.branch != "")
    ensures CommitsKnown(Do(t, m, tx))
  {}

  lemma FinishKeepsCommits(s: State, i: nat, r: Run, now: Time)
    requires CommitsKnown(s) && i < |s.runs|
    requires r.status.Succeeded? && ((r.kind.Build? && r.branch != "") || r.kind.Review?) ==> r.commit != ""
    ensures CommitsKnown(s.(runs := s.runs[i := r], decisions := CloseQuestions(s.decisions, {r.id}),
                            task := TaskAfter(s.project, s.task, r, now)))
  {
    ClosedKeepCommits(s.decisions, {r.id});
    assert forall v :: v in s.runs[i := r] ==> v == r || v in s.runs;
  }

  /** A question is only asked of a Task that has a branch. */
  lemma CarefulReport(s: State, agent: string, id: Id, rep: RunReport, tx: Tx)
    requires CommitsKnown(s) && Careful(s, OpReport(agent, id, rep)) && Report(s, agent, id, rep, tx).Committed?
    ensures CommitsKnown(Report(s, agent, id, rep, tx).state)
  {
    var i := RunAt(s.runs, id);
    var r' := Reported(s.runs[i], rep, tx.now);
    if rep.status.Terminal() {
      FinishKeepsCommits(s, i, r', tx.now);
      var t := s.(runs := s.runs[i := r'], decisions := CloseQuestions(s.decisions, {id}),
                  task := TaskAfter(s.project, s.task, r', tx.now));
      DoKeepsCommits(t, AfterRun(t, r'), tx);
    } else {
      assert forall v :: v in s.runs[i := r'] ==> v == r' || v in s.runs;
    }
  }

  lemma MapKeepsReviews(s: State, f: Run -> Run, ended: set<Id>)
    requires CommitsKnown(s) && forall r :: r in s.runs && DoneReview(f(r)) ==> f(r) == r
    ensures CommitsKnown(s.(runs := Map(s.runs, f), decisions := CloseQuestions(s.decisions, ended)))
  {
    ClosedKeepCommits(s.decisions, ended);
  }

  lemma CarefulWorker(s: State, op: Op, tx: Tx)
    requires CommitsKnown(s) && Perform(s, op, tx).Committed?
    requires op.OpClaim? || op.OpHeartbeat? || op.OpReap? || op.OpRemoveMember? || op.OpAskPermission?
    ensures CommitsKnown(Perform(s, op, tx).state)
  {
    var t := Perform(s, op, tx).state;
    match op
    case OpReap(picked) =>
      MapKeepsReviews(s, (r: Run) => Reaped(r, picked, tx.now),
                      set r | r in s.runs && r.id in picked && Expired(r, tx.now) :: r.id);
    case OpRemoveMember(id) =>
      MapKeepsReviews(s, (r: Run) => Stopped(r, id, tx.now), set r | r in s.runs && WorksFor(r, id) :: r.id);
    case OpClaim(_, _, _, _) => assert forall v :: v in t.runs && DoneReview(v) ==> v in s.runs;
    case OpHeartbeat(_, _, _) => assert forall v :: v in t.runs && DoneReview(v) ==> v in s.runs;
    case OpAskPermission(_, _) =>
  }

  lemma CarefulRest(s: State, op: Op, tx: Tx)
    requires CommitsKnown(s) && Perform(s, op, tx).Committed?
    requires op.OpAnswer? || op.OpRecordCheck? || op.OpUpdateCheck? || op.OpRequestRun? || op.OpHandTask?
    ensures CommitsKnown(Perform(s, op, tx).state)
  {
    match op
    case OpAnswer(id, answer) =>
      var i := DecisionAt(s.decisions, id);
      var d := s.decisions[i].(answer := answer);
      var t := s.(decisions := s.decisions[i := d]);
      assert s.decisions[i] in s.decisions;
      DoKeepsCommits(t, OnDecision(t, d), tx);
    case OpRecordCheck(name, status, commit) =>
      var c := Check(tx.newCheck, name, status, commit, tx.now, tx.now);
      var t := s.(checks := Insert(s.checks, c, CheckBefore));
      DoKeepsCommits(t, OnCheck(t, c), tx);
    case OpUpdateCheck(id, status) =>
      var i := CheckAt(s.checks, id);
      var c := s.checks[i].(status := status, updatedAt := tx.now);
      var t := s.(checks := s.checks[i := c]);
      DoKeepsCommits(t, OnCheck(t, c), tx);
    case OpRequestRun(_, _) =>
    case OpHandTask(_, _) =>
  }

  lemma StepKeepsCommits(s: State, op: Op, tx: Tx)
    requires CommitsKnown(s) && Careful(s, op)
    ensures CommitsKnown(Step(s, op, tx))
  {
    if Fresh(s, tx) && Perform(s, op, tx).Committed? {
      if op.OpReport? {
        CarefulReport(s, op.agent, op.run, op.rep, tx);
      } else if op.OpAnswer? || op.OpRecordCheck? || op.OpUpdateCheck? || op.OpRequestRun? || op.OpHandTask? {
        CarefulRest(s, op, tx);
      } else if !(op.OpSetTaskStatus? || op.OpUpdateProject? || op.OpJoin?) {
        CarefulWorker(s, op, tx);
      }
    }
  }

  lemma {:induction false} AlwaysCommits(s: State, script: seq<Input>)
    requires NewTask(s) && AllCareful(s, script)
    ensures CommitsKnown(After(s, script))
  {
    if script != [] {
      var n := |script| - 1;
      assert forall k :: 0 <= k < n ==> script[..n][..k] == script[..k];
      AlwaysCommits(s, script[..n]);
      StepKeepsCommits(After(s, script[..n]), script[n].op, script[n].tx);
    }
  }
}
