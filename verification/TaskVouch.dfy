/** What lands is what was approved, exactly when the Task and whoever spoke for the merge both named a commit. */
module TaskVouch {
  import opened Lists
  import opened Models
  import opened TaskMachine
  import opened TaskShape
  import opened TaskLaws
  import opened TaskMerge

  // --- who vouched for a merge ---

  /** The transaction from a to b queued merge Run id. */
  ghost predicate QueuedHere(a: State, b: State, id: Id) {
    !HasRun(a, id) && exists q :: q in b.runs && q.id == id && q.kind.Merge?
  }

  /** The commit named by what made the transaction queue a merge: the question it answered, else the newest
      succeeded review. */
  function Voucher(b: State, op: Op): string {
    if op.OpAnswer? then
      var i := DecisionAt(b.decisions, op.decision);
      if i < |b.decisions| then b.decisions[i].commit else ""
    else if LastReview(b).Some? then LastReview(b).value.commit else ""
  }

  /** What lands is what was approved: somebody spoke for this very commit. */
  ghost predicate Vouched(b: State, op: Op, commit: string) {
    commit != "" && Voucher(b, op) == commit
  }

  /** The guard that lets commits be compared: both the Task and whoever vouches name one. */
  predicate BothNamed(b: State, op: Op) {
    b.task.head != "" && Voucher(b, op) != ""
  }

  /** The route a merge was queued by: a person's answer, or a clean review with CI passed. */
  ghost predicate QueuedBy(b: State, op: Op) {
    if op.OpAnswer? then
      exists d :: d in b.decisions && d.id == op.decision && SaysMerge(d)
                  && d.commit == Voucher(b, op) && (d.commit == "" || d.commit == b.task.head)
    else CleanToLand(b)
  }

  lemma DecisionKeepsPlace(ds: seq<Decision>, i: nat, d: Decision)
    requires i < |ds| && i == DecisionAt(ds, ds[i].id) && d.id == ds[i].id
    ensures DecisionAt(ds[i := d], d.id) == i
  {
    if i > 0 {
      assert ds[i := d][1..] == ds[1..][i - 1 := d];
      DecisionKeepsPlace(ds[1..], i - 1, d);
    }
  }

  lemma QueuedByAnswer(s: State, op: Op, tx: Tx, id: Id)
    requires op.OpAnswer? && QueuedHere(s, Step(s, op, tx), id)
    ensures QueuedBy(Step(s, op, tx), op)
  {
    var i := DecisionAt(s.decisions, op.decision);
    var d := s.decisions[i].(answer := op.answer);
    var t := s.(decisions := s.decisions[i := d]);
    DecisionKeepsPlace(s.decisions, i, d);
    assert OnDecision(t, d).Land?;
    assert d in t.decisions;
  }

  lemma QueuedByMove(s: State, mid: State, m: Move, tx: Tx, id: Id)
    requires QueuedHere(s, Do(mid, m, tx), id) && (forall r :: r in mid.runs ==> HasRun(s, r.id))
    requires SoundMove(mid, m) && (m.Land? ==> CleanToLand(mid)) && (m.StartBot? ==> !KindForRole(m.to.role).Merge?)
    ensures CleanToLand(Do(mid, m, tx))
  {
    DoAdds(mid, m, tx);
    StaysClean(mid, Do(mid, m, tx), NewRun(Merge, None, mid.task.head, ByAutopilot, tx));
  }

  lemma QueuedByReport(s: State, op: Op, tx: Tx, id: Id)
    requires op.OpReport? && Report(s, op.agent, op.run, op.rep, tx).Committed?
    requires QueuedHere(s, Report(s, op.agent, op.run, op.rep, tx).state, id)
    ensures CleanToLand(Report(s, op.agent, op.run, op.rep, tx).state)
  {
    var i := RunAt(s.runs, op.run);
    var r' := Reported(s.runs[i], op.rep, tx.now);
    ReportKeepsIds(s, i, r');
    if op.rep.status.Terminal() {
      var t := s.(runs := s.runs[i := r'], decisions := CloseQuestions(s.decisions, {op.run}),
                  task := TaskAfter(s.project, s.task, r', tx.now));
      assert Report(s, op.agent, op.run, op.rep, tx).state == Do(t, AfterRun(t, r'), tx);
      AfterRunSound(t, r');
      AfterRunLandsClean(t, r');
      QueuedByMove(s, t, AfterRun(t, r'), tx, id);
    }
  }

  lemma ReportKeepsIds(s: State, i: nat, r: Run)
    requires i < |s.runs| && r.id == s.runs[i].id
    ensures forall x :: x in s.runs[i := r] ==> HasRun(s, x.id)
  {
    assert s.runs[i] in s.runs;
  }

  lemma AfterRunLandsClean(t: State, r: Run)
    ensures AfterRun(t, r).Land? ==> CleanToLand(t)
    ensures AfterRun(t, r).StartBot? ==> !KindForRole(AfterRun(t, r).to.role).Merge?
  {}

  lemma OnCheckLandsClean(t: State, c: Check)
    ensures OnCheck(t, c).Land? ==> CleanToLand(t)
    ensures OnCheck(t, c).StartBot? ==> !KindForRole(OnCheck(t, c).to.role).Merge?
  {}

  lemma QueuedByCheck(s: State, t: State, c: Check, tx: Tx, id: Id)
    requires t.runs == s.runs && QueuedHere(s, Do(t, OnCheck(t, c), tx), id)
    ensures CleanToLand(Do(t, OnCheck(t, c), tx))
  {
    OnCheckSound(t, c);
    OnCheckLandsClean(t, c);
    QueuedByMove(s, t, OnCheck(t, c), tx, id);
  }

  /** The operations of workers and of people that look after a Task queue nothing. */
  lemma QueuesNothing(s: State, op: Op, tx: Tx)
    requires op.OpClaim? || op.OpHeartbeat? || op.OpReap? || op.OpRemoveMember? || op.OpAskPermission?
      || op.OpSetTaskStatus? || op.OpUpdateProject? || op.OpJoin?
    ensures forall r :: r in Step(s, op, tx).runs ==> HasRun(s, r.id)
  {
    var t := Step(s, op, tx);
    forall r | r in t.runs ensures HasRun(s, r.id) {
      var i :| 0 <= i < |t.runs| && t.runs[i] == r;
      assert |t.runs| == |s.runs| && s.runs[i].id == r.id;
      assert s.runs[i] in s.runs;
    }
  }

  lemma QueuesNoMerge(s: State, op: Op, tx: Tx)
    requires op.OpRequestRun? || op.OpHandTask?
    ensures forall q :: q in Step(s, op, tx).runs ==> q in s.runs || !q.kind.Merge?
  {}

  /** Whatever queued a merge was a person's answer "merge", or the newest review's approval with CI passed. */
  lemma QueuedByOneRoute(s: State, op: Op, tx: Tx, id: Id)
    requires QueuedHere(s, Step(s, op, tx), id)
    ensures QueuedBy(Step(s, op, tx), op)
  {
    if op.OpAnswer? {
      QueuedByAnswer(s, op, tx, id);
    } else if op.OpReport? {
      QueuedByReport(s, op, tx, id);
    } else if op.OpRecordCheck? {
      var c := Check(tx.newCheck, op.name, op.checkStatus, op.commit, tx.now, tx.now);
      QueuedByCheck(s, s.(checks := Insert(s.checks, c, CheckBefore)), c, tx, id);
    } else if op.OpUpdateCheck? {
      var i := CheckAt(s.checks, op.check);
      var c := s.checks[i].(status := op.checkStatus, updatedAt := tx.now);
      QueuedByCheck(s, s.(checks := s.checks[i := c]), c, tx, id);
    } else if op.OpRequestRun? || op.OpHandTask? {
      QueuesNoMerge(s, op, tx);
    } else {
      QueuesNothing(s, op, tx);
    }
  }

  /** One transaction: the merge it queues is of the commit that was spoken for if and only if both sides name one. */
  lemma VouchedExactlyWhen(s: State, op: Op, tx: Tx, r: Run)
    requires RunsOk(s.runs) && r in Step(s, op, tx).runs && r.kind.Merge? && !HasRun(s, r.id)
    ensures var b := Step(s, op, tx);
      && QueuedHere(s, b, r.id) && QueuedBy(b, op) && r.commit == b.task.head
      && (Vouched(b, op, r.commit) <==> BothNamed(b, op))
  {
    StepQueues(s, op, tx, r);
    QueuedByOneRoute(s, op, tx, r.id);
  }

  // --- over whole runs of the machine ---

  /** Transaction n of the script queued merge Run id. */
  ghost predicate QueuedAt(s: State, script: seq<Input>, n: nat, id: Id)
    requires n < |script|
  {
    QueuedHere(After(s, script[..n]), After(s, script[..n + 1]), id)
  }

  ghost predicate VouchedAt(s: State, script: seq<Input>, n: nat, commit: string)
    requires n < |script|
  {
    Vouched(After(s, script[..n + 1]), script[n].op, commit)
  }

  predicate BothNamedAt(s: State, script: seq<Input>, n: nat)
    requires n < |script|
  {
    BothNamed(After(s, script[..n + 1]), script[n].op)
  }

  lemma AfterOneMore(s: State, script: seq<Input>, n: nat)
    requires n < |script|
    ensures After(s, script[..n + 1]) == Step(After(s, script[..n]), script[n].op, script[n].tx)
  {
    assert script[..n + 1][..n] == script[..n];
  }

  /** Every merge Run of a run of the machine was queued by one route, and was vouched for exactly when both sides
      named a commit. */
  lemma {:induction false} MergeVouchedExactlyWhen(s: State, script: seq<Input>, r: Run) returns (n: nat)
    requires NewTask(s) && r in After(s, script).runs && r.kind.Merge?
    ensures n < |script| && QueuedAt(s, script, n, r.id) && QueuedBy(After(s, script[..n + 1]), script[n].op)
    ensures r.commit == After(s, script[..n + 1]).task.head && After(s, script[..n + 1]).task.branch != ""
    ensures VouchedAt(s, script, n, r.commit) <==> BothNamedAt(s, script, n)
  {
    n := EveryMergeHadAReason(s, script, r);
    var a := After(s, script[..n]);
    AlwaysInv(s, script[..n]);
    AfterOneMore(s, script, n);
    var q :| q in After(s, script[..n + 1]).runs && q.id == r.id && q.kind.Merge? && q.commit == r.commit;
    VouchedExactlyWhen(a, script[n].op, script[n].tx, q);
  }

  lemma RunStays(s: State, script: seq<Input>, m: nat, n: nat, id: Id)
    requires NewTask(s) && m <= n <= |script| && HasRun(After(s, script[..m]), id)
    ensures HasRun(After(s, script[..n]), id)
  {
    assert script[..m] + script[m..n] == script[..n];
    RowsForLife(s, script[..m], script[m..n]);
    var r :| r in After(s, script[..m]).runs && r.id == id;
    var r' :| r' in After(s, script[..n]).runs && Descends(r, r');
  }

  lemma QueuedOnce(s: State, script: seq<Input>, id: Id, m: nat, n: nat)
    requires NewTask(s) && m < |script| && n < |script| && QueuedAt(s, script, m, id) && QueuedAt(s, script, n, id)
    ensures m == n
  {
    if m < n {
      RunStays(s, script, m + 1, n, id);
    } else if n < m {
      RunStays(s, script, n + 1, m, id);
    }
  }

  /** Main result, for every run of the machine and both routes: everything queued to land is a commit somebody spoke
      for, if and only if the Task's head and the approving review or the question are named whenever a merge is
      queued. */
  lemma AllVouchedExactlyWhen(s: State, script: seq<Input>)
    requires NewTask(s)
    ensures
      (forall r :: r in After(s, script).runs && r.kind.Merge? ==>
         exists n :: 0 <= n < |script| && QueuedAt(s, script, n, r.id) && VouchedAt(s, script, n, r.commit))
      <==>
      (forall r, n ::
         r in After(s, script).runs && r.kind.Merge? && 0 <= n < |script| && QueuedAt(s, script, n, r.id)
         ==> BothNamedAt(s, script, n))
  {
    var merges := set r | r in After(s, script).runs && r.kind.Merge?;
    if forall r :: r in merges ==>
         exists n :: 0 <= n < |script| && QueuedAt(s, script, n, r.id) && VouchedAt(s, script, n, r.commit) {
      forall r, n | r in After(s, script).runs && r.kind.Merge? && 0 <= n < |script| && QueuedAt(s, script, n, r.id)
        ensures BothNamedAt(s, script, n)
      {
        assert r in merges;
        var m :| 0 <= m < |script| && QueuedAt(s, script, m, r.id) && VouchedAt(s, script, m, r.commit);
        var k := MergeVouchedExactlyWhen(s, script, r);
        QueuedOnce(s, script, r.id, m, n);
        QueuedOnce(s, script, r.id, k, n);
      }
    }
    if forall r, n ::
         r in After(s, script).runs && r.kind.Merge? && 0 <= n < |script| && QueuedAt(s, script, n, r.id)
         ==> BothNamedAt(s, script, n) {
      forall r | r in After(s, script).runs && r.kind.Merge?
        ensures exists n :: 0 <= n < |script| && QueuedAt(s, script, n, r.id) && VouchedAt(s, script, n, r.commit)
      {
        var n := MergeVouchedExactlyWhen(s, script, r);
      }
    }
  }

  // --- with workers that report their commits ---

  /** A person had just answered "merge" about this very commit, or the newest succeeded review approved it with
      CI passed. */
  ghost predicate SpokenFor(b: State, op: Op, commit: string) {
    if op.OpAnswer? then
      exists d :: d in b.decisions && d.id == op.decision && SaysMerge(d) && d.commit == commit
    else
      && LastReview(b).Some? && LastReview(b).value.verdict.Approve? && LastReview(b).value.commit == commit
      && CiState(b.checks, b.task.head, LastBuild(b)) == CheckSuccess
  }

  lemma NamedIsSpokenFor(b: State, op: Op)
    requires CommitsKnown(b) && QueuedBy(b, op) && b.task.branch != ""
    ensures BothNamed(b, op) && SpokenFor(b, op, b.task.head)
  {}

  /** With careful workers every merge Run carries a commit, and that commit was spoken for when it was queued. */
  lemma {:induction false} WhatLandsWasApproved(s: State, script: seq<Input>, r: Run) returns (n: nat)
    requires NewTask(s) && AllCareful(s, script) && r in After(s, script).runs && r.kind.Merge?
    ensures n < |script| && QueuedAt(s, script, n, r.id) && After(s, script[..n + 1]).task.branch != ""
    ensures r.commit != "" && SpokenFor(After(s, script[..n + 1]), script[n].op, r.commit)
  {
    n := MergeVouchedExactlyWhen(s, script, r);
    CarefulPrefix(s, script, n + 1);
    AlwaysCommits(s, script[..n + 1]);
    NamedIsSpokenFor(After(s, script[..n + 1]), script[n].op);
  }

  lemma CarefulPrefix(s: State, script: seq<Input>, n: nat)
    requires n <= |script| && AllCareful(s, script)
    ensures AllCareful(s, script[..n])
  {
    assert forall k :: 0 <= k < n ==> script[..n][..k] == script[..k];
  }

  /** A review or an answered question vouches for the commit. */
  ghost predicate OnRecord(s: State, commit: string) {
    || (exists v :: v in s.runs && DoneReview(v) && v.verdict.Approve? && v.commit == commit)
    || (exists d :: d in s.decisions && SaysMerge(d) && d.commit == commit)
  }

  lemma RecordIsKept(b: State, t: State, commit: string)
    requires OnRecord(b, commit) && Kept(b, t)
    ensures OnRecord(t, commit)
  {
    if d :| d in b.decisions && SaysMerge(d) && d.commit == commit {
      NeverEmpty(d.answer);
      assert d in t.decisions;
    } else {
      var v :| v in b.runs && DoneReview(v) && v.verdict.Approve? && v.commit == commit;
      var v' :| v' in t.runs && Descends(v, v');
      assert v' == v;
    }
  }

  /** Whoever spoke for a merge stays on record. */
  lemma StaysOnRecord(s: State, script: seq<Input>, n: nat, commit: string)
    requires NewTask(s) && n < |script| && SpokenFor(After(s, script[..n + 1]), script[n].op, commit)
    ensures OnRecord(After(s, script), commit)
  {
    var b := After(s, script[..n + 1]);
    assert script[..n + 1] + script[n + 1..] == script;
    RowsForLife(s, script[..n + 1], script[n + 1..]);
    assert OnRecord(b, commit);
    RecordIsKept(b, After(s, script), commit);
  }
}
