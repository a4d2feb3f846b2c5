/** Two agents never get the same Run, and a Project stays within its max_runs, however claims interleave. */
module ClaimLaws {
  import opened Lists
  import opened ClaimSteps

  function One(project: nat, r: Row): nat {
    if Busy(project, r) then 1 else 0
  }

  lemma {:induction false} LoadUpdate(runs: seq<Row>, i: nat, r: Row, project: nat)
    requires i < |runs|
    ensures Load(runs[i := r], project) == Load(runs, project) - One(project, runs[i]) + One(project, r)
  {
    var n := |runs| - 1;
    if i == n {
      assert runs[i := r][..n] == runs[..n];
    } else {
      assert runs[i := r][..n] == runs[..n][i := r];
      LoadUpdate(runs[..n], i, r, project);
    }
  }

  lemma LoadAppend(runs: seq<Row>, r: Row, project: nat)
    ensures Load(runs + [r], project) == Load(runs, project) + One(project, r)
  {
    assert (runs + [r])[..|runs|] == runs;
  }

  // --- what every step keeps ---

  /** A row a claim holds is still pending, and no two claims hold the same row. */
  ghost predicate Exclusive(s: Sys) {
    && (forall t :: t in s.open && !s.open[t].Looked? ==>
          s.open[t].run < |s.db.runs| && s.db.runs[s.open[t].run].status == Pending)
    && (forall t, u :: t in s.open && u in s.open && t != u && !s.open[t].Looked? && !s.open[u].Looked? ==>
          s.open[t].run != s.open[u].run)
  }

  /** A pending row was given to nobody; every other row that has a worker was given to that agent, once. */
  ghost predicate GivenOnce(s: Sys) {
    && (forall k :: 0 <= k < |s.given| ==>
          s.given[k].0 < |s.db.runs|
          && s.db.runs[s.given[k].0].status != Pending && s.db.runs[s.given[k].0].worker == Some(s.given[k].1))
    && (forall j, k :: 0 <= j < k < |s.given| ==> s.given[j].0 != s.given[k].0)
    && (forall i :: 0 <= i < |s.db.runs| && s.db.runs[i].status == Running ==>
          exists k :: 0 <= k < |s.given| && s.given[k].0 == i)
    && (forall i :: 0 <= i < |s.db.runs| && s.db.runs[i].status == Pending ==> s.db.runs[i].worker == None)
  }

  ghost predicate CountHolds(s: Sys, c: Claim)
    requires c.Counted?
  {
    c.run < |s.db.runs|
    && c.maxRuns == MaxRuns(s.db, s.db.runs[c.run].project)
    && Load(s.db.runs, s.db.runs[c.run].project) + 1 <= c.running
  }

  /** While a claim holds the Project's lock its count can only be too high, and nobody else holds that lock. */
  ghost predicate Locked(s: Sys) {
    && (forall t :: t in s.open && s.open[t].Counted? ==> CountHolds(s, s.open[t]))
    && (forall t, u :: t in s.open && u in s.open && t != u && s.open[t].Counted? && s.open[u].Counted? ==>
          s.open[t].run < |s.db.runs| && s.open[u].run < |s.db.runs|
          && s.db.runs[s.open[t].run].project != s.db.runs[s.open[u].run].project)
  }

  ghost predicate Inv(s: Sys) {
    Exclusive(s) && GivenOnce(s) && Locked(s)
  }

  lemma {:induction false} FirstIsTakeable(s: Sys, view: Db, bot: nat, n: nat)
    requires n <= |view.runs|
    ensures var r := FirstInLine(s, view, bot, n);
      r.Some? ==> Takeable(s, view, bot, r.value)
  {
    if n > 0 {
      FirstIsTakeable(s, view, bot, n - 1);
    }
  }

  lemma TakeKeeps(s: Sys, t: nat)
    requires Inv(s)
    ensures Inv(Take(s, t))
  {
    if t in s.open && s.open[t].Looked? {
      var c := s.open[t];
      FirstIsTakeable(s, c.view, c.bot, |c.view.runs|);
      var r := FirstInLine(s, c.view, c.bot, |c.view.runs|);
      if r.Some? {
        assert !RowLocked(s, r.value);
      }
    }
  }

  lemma RecountKeeps(s: Sys, t: nat)
    requires Inv(s)
    ensures Inv(Recount(s, t))
  {
    if t in s.open && s.open[t].Took? {
      var c := s.open[t];
      var p := s.db.runs[c.run].project;
      if !ProjectLocked(s, p) {
        LoadUpdate(s.db.runs, c.run, Given(s.db.runs[c.run], c.agent), p);
      }
    }
  }

  lemma GivenKeeps(s: Sys, i: nat, agent: string)
    requires GivenOnce(s) && i < |s.db.runs| && s.db.runs[i].status == Pending
    ensures GivenOnce(s.(db := s.db.(runs := s.db.runs[i := Given(s.db.runs[i], agent)]),
      given := s.given + [(i, agent)]))
  {
    var v := s.(db := s.db.(runs := s.db.runs[i := Given(s.db.runs[i], agent)]), given := s.given + [(i, agent)]);
    forall j | 0 <= j < |v.db.runs| && v.db.runs[j].status == Running
      ensures exists k :: 0 <= k < |v.given| && v.given[k].0 == j
    {
      if j == i {
        assert v.given[|s.given|].0 == i;
      } else {
        var k :| 0 <= k < |s.given| && s.given[k].0 == j;
        assert v.given[k].0 == j;
      }
    }
  }

  lemma CommitKeepsLocks(s: Sys, t: nat)
    requires Inv(s) && t in s.open && s.open[t].Counted?
    ensures Locked(Close(s, t).(db := s.db.(runs := OwnRuns(s, s.open[t]))))
  {
    var c := s.open[t];
    var v := Close(s, t).(db := s.db.(runs := OwnRuns(s, c)));
    forall u | u in v.open && v.open[u].Counted? ensures CountHolds(v, v.open[u]) {
      LoadUpdate(s.db.runs, c.run, Given(s.db.runs[c.run], c.agent), s.db.runs[v.open[u].run].project);
    }
  }

  lemma FinishKeeps(s: Sys, t: nat)
    requires Inv(s)
    ensures Inv(Finish(s, t))
  {
    if t in s.open && s.open[t].Counted? {
      var c := s.open[t];
      if !OverLimit(c) {
        GivenKeeps(s, c.run, c.agent);
        CommitKeepsLocks(s, t);
      }
    }
  }

  lemma EndKeeps(s: Sys, i: nat)
    requires Inv(s)
    ensures Inv(End(s, i))
  {
    if i < |s.db.runs| && !RowLocked(s, i) {
      var v := End(s, i);
      forall u | u in v.open && v.open[u].Counted? ensures CountHolds(v, v.open[u]) {
        LoadUpdate(s.db.runs, i, s.db.runs[i].(status := Done), s.db.runs[v.open[u].run].project);
      }
      forall j | 0 <= j < |v.db.runs| && v.db.runs[j].status == Running
        ensures exists k :: 0 <= k < |v.given| && v.given[k].0 == j
      {
        assert s.db.runs[j].status == Running;
      }
    }
  }

  lemma QueueKeeps(s: Sys, project: nat, bot: Option<nat>, at: nat)
    requires Inv(s)
    ensures Inv(Next(s, Queues(project, bot, at)))
  {
    var r := Row(project, bot, at, Pending, None);
    var v := Next(s, Queues(project, bot, at));
    forall u | u in v.open && v.open[u].Counted? ensures CountHolds(v, v.open[u]) {
      LoadAppend(s.db.runs, r, s.db.runs[v.open[u].run].project);
    }
    forall j | 0 <= j < |v.db.runs| && v.db.runs[j].status == Running
      ensures exists k :: 0 <= k < |v.given| && v.given[k].0 == j
    {
      assert s.db.runs[j].status == Running;
    }
  }

  lemma StepKeeps(s: Sys, step: Step)
    requires Inv(s)
    ensures Inv(Next(s, step))
  {
    match step {
      case Looks(_, _, _) =>
      case Takes(t) => TakeKeeps(s, t);
      case Recounts(t) => RecountKeeps(s, t);
      case Finishes(t) => FinishKeeps(s, t);
      case Aborts(_) =>
      case Queues(p, bot, at) => QueueKeeps(s, p, bot, at);
      case Ends(i) => EndKeeps(s, i);
      case Configures(_, _) =>
    }
  }

  lemma {:induction false} AlwaysInv(s: Sys, script: seq<Step>)
    requires Initial(s)
    ensures Inv(After(s, script))
  {
    if script != [] {
      AlwaysInv(s, script[..|script| - 1]);
      StepKeeps(After(s, script[..|script| - 1]), script[|script| - 1]);
    }
  }
}
