/** What every run of the machine keeps, whoever acts and in whatever order. */
module TaskLaws {
  import opened Lists
  import opened Models
  import opened TaskMachine
  import opened TaskShape

  /** Every row is sound, ids are unique and the listing is newest first. */
  ghost predicate RunsOk(runs: seq<Run>) {
    && (forall r :: r in runs ==> RunOk(r))
    && (forall i, j :: 0 <= i < j < |runs| ==> runs[i].id != runs[j].id)
    && Ordered(runs, RunBefore)
  }

  /** A merge Run that is waiting, under way or done. */
  predicate LiveMerge(r: Run) { ActiveMerge(r) || Landed(r) }

  ghost predicate MergeOk(s: State) {
    && Count(s.runs, LiveMerge) <= 1
    && (s.task.mergedAt.Some? <==> exists r :: r in s.runs && Landed(r))
  }

  ghost predicate AskOk(s: State) {
    Count(s.decisions, OpenAsk) <= 1
  }

  ghost predicate PermissionOk(s: State) {
    forall d :: d in s.decisions && d.action.Permission? && d.answer == "" ==>
      d.run.Some? && exists r :: r in s.runs && r.id == d.run.value && r.status.Running?
  }

  /** A succeeded, approving review that was about commit c, when both reported their commit. */
  predicate Vouches(v: Run, c: string) {
    DoneReview(v) && v.verdict.Approve? && (v.commit == c || v.commit == "" || c == "")
  }

  ghost predicate Backed(s: State, r: Run) {
    || (exists d :: d in s.decisions && AgreesTo(d, r.commit))
    || (exists v :: v in s.runs && Vouches(v, r.commit))
  }

  ghost predicate BackedOk(s: State) {
    forall r :: r in s.runs && r.kind.Merge? ==> Backed(s, r)
  }

  /** A build that counts against the Builder: succeeded, or still on its way. */
  predicate SpentBuild(r: Run) { ActiveBuild(r) || DoneBuild(r) }

  /** A build that a person or a plan asked for. */
  predicate AskedBuild(r: Run) { r.kind.Build? && !r.origin.SentBack? }

  ghost predicate BuildsOk(s: State) {
    Count(s.runs, SpentBuild) <= MAX_ROUNDS + Count(s.runs, AskedBuild)
  }

  ghost predicate Inv(s: State) {
    RunsOk(s.runs) && MergeOk(s) && AskOk(s) && PermissionOk(s) && BackedOk(s) && BuildsOk(s)
  }

  lemma RunsStayOk(a: seq<Run>, b: seq<Run>)
    requires RunsOk(a) && RunsMove(a, b)
    ensures RunsOk(b) && forall r :: r in b ==> exists r0 :: r0 in a && r0.id == r.id
  {
    forall i | 0 <= i < |b|
      ensures b[i].id == a[i].id && b[i].createdAt == a[i].createdAt && RunOk(b[i]) && a[i] in a
    {
      assert Evolves(a[i], b[i]) && a[i] in a;
    }
  }

  lemma QueuedStaysOk(runs: seq<Run>, q: Run)
    requires RunsOk(runs) && RunOk(q) && forall r :: r in runs ==> r.id != q.id
    ensures RunsOk(Insert(runs, q, RunBefore))
  {
    InsertOrdered(runs, q, RunBefore);
  }

  lemma RowsKept(s: State, e: Effect, s': State, tx: Tx)
    requires RunsOk(s.runs) && Shaped(s, e, s', tx) && (e.queued.Some? ==> Fresh(s, tx))
    ensures RunsOk(s'.runs)
  {
    RunsStayOk(s.runs, e.mid.runs);
    if e.queued.Some? {
      QueuedStaysOk(e.mid.runs, e.queued.value);
    }
  }

  lemma LandedMoves(a: seq<Run>, b: seq<Run>)
    requires RunsMove(a, b)
    ensures (exists r :: r in b && Landed(r)) <==>
              (exists r :: r in a && Landed(r)) || exists i :: 0 <= i < |a| && !Landed(a[i]) && Landed(b[i])
  {
    if r :| r in a && Landed(r) {
      var i :| 0 <= i < |a| && a[i] == r;
      assert b[i] == r;
    }
    if r :| r in b && Landed(r) {
      var i :| 0 <= i < |b| && b[i] == r;
      assert Landed(a[i]) ==> a[i] in a;
    }
  }

  lemma MergeKept(s: State, e: Effect, s': State, tx: Tx)
    requires MergeOk(s) && Shaped(s, e, s', tx)
    ensures MergeOk(s')
  {
    LandedMoves(s.runs, e.mid.runs);
    CountPointwise(s.runs, e.mid.runs, LiveMerge, LiveMerge);
    if e.queued.Some? {
      CountInsert(e.mid.runs, e.queued.value, RunBefore, LiveMerge);
      CountZero(e.mid.runs, LiveMerge);
    }
  }

  lemma AskKept(s: State, e: Effect, s': State, tx: Tx)
    requires AskOk(s) && Shaped(s, e, s', tx)
    ensures AskOk(s')
  {
    CountPointwise(s.decisions, e.mid.decisions, OpenAsk, OpenAsk);
    if e.asked.Some? {
      CountConcat(e.mid.decisions, [e.asked.value], OpenAsk);
      if e.asked.value.action.MergeIt? {
        CountZero(e.mid.decisions, OpenAsk);
      }
    } else {
      assert s'.decisions == e.mid.decisions;
    }
  }

  lemma PermissionKept(s: State, e: Effect, s': State, tx: Tx)
    requires PermissionOk(s) && Shaped(s, e, s', tx)
    ensures PermissionOk(s')
  {
    var mid := e.mid;
    forall d | d in s'.decisions && d.action.Permission? && d.answer == ""
      ensures d.run.Some? && exists r :: r in s'.runs && r.id == d.run.value && r.status.Running?
    {
      if d in mid.decisions {
        var k :| 0 <= k < |mid.decisions| && mid.decisions[k] == d;
        assert s.decisions[k] == d && d in s.decisions;
        var r :| r in s.runs && r.id == d.run.value && r.status.Running?;
        var i :| 0 <= i < |s.runs| && s.runs[i] == r;
        assert mid.runs[i] in mid.runs && mid.runs[i].id == r.id;
      }
    }
  }

  lemma BackedKept(s: State, e: Effect, s': State, tx: Tx)
    requires BackedOk(s) && Shaped(s, e, s', tx)
    ensures BackedOk(s')
  {
    var mid := e.mid;
    forall r | r in s'.runs && r.kind.Merge?
      ensures Backed(s', r)
    {
      if r in mid.runs {
        var i :| 0 <= i < |mid.runs| && mid.runs[i] == r;
        assert s.runs[i] in s.runs && s.runs[i].commit == r.commit;
        StillBacked(s, e, s', s.runs[i], tx);
      } else if CleanToLand(mid) {
        assert Vouches(LastReview(mid).value, r.commit);
      } else {
        var d :| d in mid.decisions && AgreesTo(d, r.commit);
        assert d in s'.decisions;
      }
    }
  }

  lemma StillBacked(s: State, e: Effect, s': State, r: Run, tx: Tx)
    requires Shaped(s, e, s', tx) && Backed(s, r)
    ensures Backed(s', r)
  {
    if d :| d in s.decisions && AgreesTo(d, r.commit) {
      var k :| 0 <= k < |s.decisions| && s.decisions[k] == d;
      NeverEmpty(d.answer);
      assert e.mid.decisions[k] == d && d in s'.decisions;
    } else {
      var v :| v in s.runs && Vouches(v, r.commit);
      var i :| 0 <= i < |s.runs| && s.runs[i] == v;
      assert e.mid.runs[i] == v && v in s'.runs;
    }
  }

  lemma NeverEmpty(answer: string)
    ensures EqualFold(answer, "merge") ==> answer != ""
  {
    assert |Lower("merge")| == 5;
  }

  lemma BuildsKept(s: State, e: Effect, s': State, tx: Tx)
    requires BuildsOk(s) && Shaped(s, e, s', tx)
    ensures BuildsOk(s')
  {
    var mid := e.mid;
    CountPointwise(s.runs, mid.runs, SpentBuild, SpentBuild);
    CountPointwise(mid.runs, s.runs, AskedBuild, AskedBuild);
    if e.queued.Some? {
      var q := e.queued.value;
      CountInsert(mid.runs, q, RunBefore, SpentBuild);
      CountInsert(mid.runs, q, RunBefore, AskedBuild);
      if q.kind.Build? && q.origin.SentBack? {
        CountPointwise(mid.runs, mid.runs, DoneBuild, SpentBuild);
      }
    }
  }

  lemma StepKeeps(s: State, op: Op, tx: Tx)
    requires Inv(s)
    ensures Inv(Step(s, op, tx))
  {
    var e := StepShaped(s, op, tx);
    var s' := Step(s, op, tx);
    RowsKept(s, e, s', tx);
    MergeKept(s, e, s', tx);
    AskKept(s, e, s', tx);
    PermissionKept(s, e, s', tx);
    BackedKept(s, e, s', tx);
    BuildsKept(s, e, s', tx);
  }

  /** A Task nobody has worked on yet. */
  predicate NewTask(s: State) {
    s.runs == [] && s.decisions == [] && s.checks == [] && s.task.mergedAt.None? && s.task.branch == ""
    && s.task.head == ""
  }

  lemma {:induction false} AlwaysInv(s: State, script: seq<Input>)
    requires Inv(s)
    ensures Inv(After(s, script))
  {
    if script != [] {
      var n := |script| - 1;
      AlwaysInv(s, script[..n]);
      StepKeeps(After(s, script[..n]), script[n].op, script[n].tx);
    }
  }

  // --- the main results, over every script of transactions on a new Task ---

  /** At most one merge Run is ever unfinished, at most one ever succeeds, and never both. */
  lemma OneMerge(s: State, script: seq<Input>, i: nat, j: nat)
    requires NewTask(s)
    requires i < |After(s, script).runs| && j < |After(s, script).runs|
    requires LiveMerge(After(s, script).runs[i]) && LiveMerge(After(s, script).runs[j])
    ensures i == j
    ensures After(s, script).task.mergedAt.Some? <==> Landed(After(s, script).runs[i])
  {
    AlwaysInv(s, script);
    var t := After(s, script);
    CountAtMostOne(t.runs, LiveMerge, i, j);
    if r :| r in t.runs && Landed(r) {
      var k :| 0 <= k < |t.runs| && t.runs[k] == r;
      CountAtMostOne(t.runs, LiveMerge, i, k);
    }
  }

  /** People are asked about a merge one question at a time. */
  lemma OneMergeQuestion(s: State, script: seq<Input>, i: nat, j: nat)
    requires NewTask(s)
    requires i < |After(s, script).decisions| && j < |After(s, script).decisions|
    requires OpenAsk(After(s, script).decisions[i]) && OpenAsk(After(s, script).decisions[j])
    ensures i == j
  {
    AlwaysInv(s, script);
    CountAtMostOne(After(s, script).decisions, OpenAsk, i, j);
  }

  /** An unanswered permission question belongs to a Run that is running now, on some worker's lease. */
  lemma PermissionIsAwaited(s: State, script: seq<Input>, d: Decision) returns (r: Run)
    requires NewTask(s)
    requires d in After(s, script).decisions && d.action.Permission? && d.answer == ""
    ensures r in After(s, script).runs && d.run == Some(r.id) && r.status.Running? && r.worker != "" && r.lease.Some?
  {
    AlwaysInv(s, script);
    r :| r in After(s, script).runs && r.id == d.run.value && r.status.Running?;
  }

  /** The Builder's succeeded and active builds never exceed the rounds it gets plus the builds people and plans
      asked for. */
  lemma BuildsAreBounded(s: State, script: seq<Input>)
    requires NewTask(s)
    ensures Count(After(s, script).runs, SpentBuild) <= MAX_ROUNDS + Count(After(s, script).runs, AskedBuild)
  {
    AlwaysInv(s, script);
  }

  /** A Run's columns agree with its status, and the listing stays newest first with unique ids. */
  lemma LifecycleHolds(s: State, script: seq<Input>)
    requires NewTask(s)
    ensures RunsOk(After(s, script).runs)
  {
    AlwaysInv(s, script);
  }

  // --- what a row keeps for life ---

  /** r' is what became of r: the same row, untouched once finished, claimed at most once and by one worker. */
  predicate Descends(r: Run, r': Run) {
    && r'.id == r.id && r'.kind == r.kind && r'.bot == r.bot && r'.createdAt == r.createdAt
    && (r.status.Terminal() ==> r' == r)
    && (r.worker != "" ==> r'.worker == r.worker && r'.attempts == r.attempts)
    && (r.kind.Merge? ==> r'.commit == r.commit)
  }

  ghost predicate Kept(s: State, s': State) {
    && (forall r :: r in s.runs ==> exists r' :: r' in s'.runs && Descends(r, r'))
    && (forall d :: d in s.decisions && d.answer != "" ==> d in s'.decisions)
    && (s.task.mergedAt.Some? ==> s'.task.mergedAt.Some?)
  }

  lemma StepKeepsRows(s: State, op: Op, tx: Tx)
    requires RunsOk(s.runs)
    ensures Kept(s, Step(s, op, tx))
  {
    var e := StepShaped(s, op, tx);
    var s' := Step(s, op, tx);
    forall r | r in s.runs
      ensures exists r' :: r' in s'.runs && Descends(r, r')
    {
      var i :| 0 <= i < |s.runs| && s.runs[i] == r;
      var r' := e.mid.runs[i];
      assert RunOk(r) && RunOk(r') && r' in s'.runs;
      assert Descends(r, r');
    }
    forall d | d in s.decisions && d.answer != ""
      ensures d in s'.decisions
    {
      var k :| 0 <= k < |s.decisions| && s.decisions[k] == d;
      assert e.mid.decisions[k] == d;
    }
  }

  lemma KeptTransitive(a: State, b: State, c: State)
    requires Kept(a, b) && Kept(b, c)
    ensures Kept(a, c)
  {
    forall r | r in a.runs
      ensures exists r' :: r' in c.runs && Descends(r, r')
    {
      var r1 :| r1 in b.runs && Descends(r, r1);
      var r2 :| r2 in c.runs && Descends(r1, r2);
      assert Descends(r, r2);
    }
  }

  lemma KeptReflexive(s: State)
    ensures Kept(s, s)
  {
    forall r | r in s.runs
      ensures exists r' :: r' in s.runs && Descends(r, r')
    {
      assert Descends(r, r);
    }
  }

  lemma {:induction false} RowsKeptSince(s: State, later: seq<Input>)
    requires Inv(s)
    ensures Kept(s, After(s, later))
  {
    if later == [] {
      KeptReflexive(s);
    } else {
      var n := |later| - 1;
      RowsKeptSince(s, later[..n]);
      AlwaysInv(s, later[..n]);
      StepKeepsRows(After(s, later[..n]), later[n].op, later[n].tx);
      KeptTransitive(s, After(s, later[..n]), After(s, later));
    }
  }

  lemma {:induction false} AfterConcat(s: State, before: seq<Input>, later: seq<Input>)
    ensures After(s, before + later) == After(After(s, before), later)
    decreases |later|
  {
    if later == [] {
      assert before + later == before;
    } else {
      var n := |later| - 1;
      assert (before + later)[..|before + later| - 1] == before + later[..n];
      AfterConcat(s, before, later[..n]);
    }
  }

  /** From any point of a run to any later point: finished Runs are absorbing, a claimed Run keeps its
      worker, an answer is given once, and a merged Task stays merged. */
  lemma RowsForLife(s: State, before: seq<Input>, later: seq<Input>)
    requires NewTask(s)
    ensures Kept(After(s, before), After(s, before + later))
  {
    AlwaysInv(s, before);
    AfterConcat(s, before, later);
    RowsKeptSince(After(s, before), later);
  }
}
