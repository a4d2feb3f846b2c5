/** What the claim protocol promises, for every interleaving of claims, reports and edits of the Project. */
module ClaimTheorems {
  import opened Lists
  import opened ClaimSteps
  import opened ClaimLaws

  /** No two committed claims are of the same Run, and a Run that was claimed shows the agent that claimed it for
      the rest of its life. */
  lemma OneAgentPerRun(s: Sys, script: seq<Step>, j: nat, k: nat)
    requires Initial(s)
    requires j < |After(s, script).given| && k < |After(s, script).given|
    ensures After(s, script).given[j].0 == After(s, script).given[k].0 ==> j == k
    ensures var v := After(s, script);
      v.given[j].0 < |v.db.runs| && v.db.runs[v.given[j].0].worker == Some(v.given[j].1)
  {
    AlwaysInv(s, script);
  }

  /** Claims are never undone: whatever happens later, a Run claimed now stays claimed by that agent. */
  lemma {:induction false} ClaimedForLife(s: Sys, script: seq<Step>, more: seq<Step>)
    requires Initial(s)
    ensures After(s, script).given <= After(s, script + more).given
  {
    if more == [] {
      assert script + more == script;
    } else {
      var n := |more| - 1;
      assert (script + more)[..|script + more| - 1] == script + more[..n];
      ClaimedForLife(s, script, more[..n]);
    }
  }

  // --- max_runs ---

  /** A claim commits only while its Project, with the claimed Run, is within the limit in force at that moment. */
  lemma CommitsWithinLimit(s: Sys, t: nat)
    requires Inv(s) && t in s.open && s.open[t].Counted? && !OverLimit(s.open[t])
    ensures var p := s.db.runs[s.open[t].run].project;
      MaxRuns(s.db, p) > 0 ==> Load(Finish(s, t).db.runs, p) <= MaxRuns(s.db, p)
  {
    var c := s.open[t];
    LoadUpdate(s.db.runs, c.run, Given(s.db.runs[c.run], c.agent), s.db.runs[c.run].project);
  }

  /** Only a committed claim makes a Project's load grow. */
  lemma LoadGrowsOnlyByClaim(s: Sys, step: Step, project: nat)
    requires Inv(s) && Load(Next(s, step).db.runs, project) > Load(s.db.runs, project)
    ensures step.Finishes? && step.tx in s.open && s.open[step.tx].Counted? && !OverLimit(s.open[step.tx])
    ensures s.db.runs[s.open[step.tx].run].project == project
  {
    match step {
      case Looks(_, _, _) =>
      case Takes(_) =>
      case Recounts(_) =>
      case Finishes(t) =>
        if t in s.open && s.open[t].Counted? && !OverLimit(s.open[t]) {
          var c := s.open[t];
          LoadUpdate(s.db.runs, c.run, Given(s.db.runs[c.run], c.agent), project);
        }
      case Aborts(_) =>
      case Queues(p, bot, at) => LoadAppend(s.db.runs, Row(p, bot, at, Pending, None), project);
      case Ends(i) =>
        if i < |s.db.runs| {
          LoadUpdate(s.db.runs, i, s.db.runs[i].(status := Done), project);
        }
      case Configures(_, _) =>
    }
  }

  /** The Project's settings are left alone. */
  predicate Fixed(script: seq<Step>, project: nat) {
    forall i :: 0 <= i < |script| && script[i].Configures? ==> script[i].project != project
  }

  lemma {:induction false} NothingRunning(runs: seq<Row>, project: nat)
    requires forall i :: 0 <= i < |runs| ==> runs[i].status == Pending
    ensures Load(runs, project) == 0
  {
    if runs != [] {
      NothingRunning(runs[..|runs| - 1], project);
    }
  }

  /** Main result: a Project with a fixed positive max_runs never has more Runs running than that. */
  lemma {:induction false} WithinLimit(s: Sys, script: seq<Step>, project: nat)
    requires Initial(s) && Fixed(script, project) && MaxRuns(s.db, project) > 0
    ensures MaxRuns(After(s, script).db, project) == MaxRuns(s.db, project)
    ensures Load(After(s, script).db.runs, project) <= MaxRuns(s.db, project)
  {
    if script == [] {
      NothingRunning(s.db.runs, project);
    } else {
      var most := script[..|script| - 1];
      var step := script[|script| - 1];
      WithinLimit(s, most, project);
      AlwaysInv(s, most);
      var v := After(s, most);
      if Load(Next(v, step).db.runs, project) > Load(v.db.runs, project) {
        LoadGrowsOnlyByClaim(v, step, project);
        CommitsWithinLimit(v, step.tx);
      }
    }
  }

  // --- which row a claim takes, and when it gives up ---

  /** A claim takes the first row in line: nothing it could have taken comes before it, and it comes back
      empty-handed exactly when there was nothing to take. */
  lemma {:induction false} TakesTheFirst(s: Sys, view: Db, bot: nat, n: nat)
    requires n <= |view.runs|
    ensures var r := FirstInLine(s, view, bot, n);
      && (r.None? <==> forall i :: 0 <= i < n ==> !Takeable(s, view, bot, i))
      && (r.Some? ==> Takeable(s, view, bot, r.value))
      && (r.Some? ==> forall i :: 0 <= i < n && Takeable(s, view, bot, i) && i != r.value ==> Before(view, r.value, i))
  {
    if n > 0 {
      TakesTheFirst(s, view, bot, n - 1);
    }
  }

  /** The places of the Project's running rows. */
  ghost function Going(runs: seq<Row>, project: nat): set<nat> {
    set i: nat | i < |runs| && runs[i].project == project && runs[i].status == Running
  }

  lemma GoingOneMore(runs: seq<Row>, project: nat)
    requires runs != []
    ensures var n := |runs| - 1;
      Going(runs, project) == Going(runs[..n], project) + if Busy(project, runs[n]) then {n} else {}
  {
  }

  /** A load is the number of the Project's rows that are running. */
  lemma {:induction false} LoadIsNumber(runs: seq<Row>, project: nat)
    ensures Load(runs, project) == |Going(runs, project)|
  {
    if runs != [] {
      LoadIsNumber(runs[..|runs| - 1], project);
      GoingOneMore(runs, project);
    }
  }

  /** In the view, row i is pending, for this Bot or for nobody in particular, in a Project that is known, not archived
      and below its limit. */
  ghost predicate WaitsFor(view: Db, bot: nat, i: nat) {
    && i < |view.runs| && view.runs[i].status == Pending
    && (view.runs[i].bot == None || view.runs[i].bot == Some(bot))
    && view.runs[i].project in view.projects
    && var p := view.projects[view.runs[i].project];
       !p.archived && (p.maxRuns == 0 || Load(view.runs, view.runs[i].project) < p.maxRuns)
  }

  /** Row i is still pending, and no other claim has it. */
  ghost predicate Untouched(s: Sys, i: nat) {
    && i < |s.db.runs| && s.db.runs[i].status == Pending
    && forall t :: t in s.open ==> s.open[t].Looked? || s.open[t].run != i
  }

  /** Row i is served before row j: fewer Runs going in its Project, else older, else the lower id. */
  ghost predicate ServedBefore(view: Db, i: nat, j: nat)
    requires i < |view.runs| && j < |view.runs|
  {
    var x, y := Load(view.runs, view.runs[i].project), Load(view.runs, view.runs[j].project);
    if x != y then x < y
    else if view.runs[i].createdAt != view.runs[j].createdAt then view.runs[i].createdAt < view.runs[j].createdAt
    else i < j
  }

  /** However claims interleave, a Bot's agent takes a row that waits for that Bot or for anybody, the one served first
      of those nobody else has; it comes back empty-handed exactly when there is none. */
  lemma TakesItsOwnWork(s: Sys, view: Db, bot: nat)
    ensures var r := FirstInLine(s, view, bot, |view.runs|);
      && (r.None? <==> forall i :: WaitsFor(view, bot, i) ==> !Untouched(s, i))
      && (r.Some? ==>
            && WaitsFor(view, bot, r.value) && Untouched(s, r.value)
            && forall i :: WaitsFor(view, bot, i) && Untouched(s, i) && i != r.value ==> ServedBefore(view, r.value, i))
  {
    TakesTheFirst(s, view, bot, |view.runs|);
    assert forall i :: 0 <= i < |view.runs| ==> (Takeable(s, view, bot, i)
        <==> WaitsFor(view, bot, i) && Untouched(s, i));
    assert forall i, j :: 0 <= i < |view.runs| && 0 <= j < |view.runs| && i != j ==>
             (Before(view, i, j) <==> ServedBefore(view, i, j));
  }

  /** A Run that was queued waits for the Bot it was queued for, or for any, as soon as its Project has room. */
  lemma QueuedRowWaits(s: Sys, project: nat, waitsFor: Option<nat>, createdAt: nat, bot: nat)
    requires project in s.db.projects && !s.db.projects[project].archived
    requires s.db.projects[project].maxRuns == 0 || Load(s.db.runs, project) < s.db.projects[project].maxRuns
    ensures var v := Next(s, Queues(project, waitsFor, createdAt));
      && v.db.runs[..|s.db.runs|] == s.db.runs
      && (WaitsFor(v.db, bot, |s.db.runs|) <==> waitsFor == None || waitsFor == Some(bot))
  {
    LoadAppend(s.db.runs, Row(project, waitsFor, createdAt, Pending, None), project);
  }

  /** An edit of a Project's settings is in force at once, unless a claim that recounted holds the Project. */
  lemma SettingsInForce(s: Sys, project: nat, to: Project)
    ensures var v := Next(s, Configures(project, to));
      if forall t :: t in s.open ==> !s.open[t].Counted? || s.open[t].run >= |s.db.runs|
                                     || s.db.runs[s.open[t].run].project != project
      then v.db.projects == s.db.projects[project := to] && v.db.runs == s.db.runs
      else v == s
  {}

  ghost predicate NobodyElseHas(s: Sys, t: nat, i: nat) {
    forall u :: u in s.open && u != t ==> s.open[u].Looked? || s.open[u].run != i
  }

  /** A claim that is over, aborted or finished either way, lets go: what it held is free for others again, unless it
      was given away. */
  lemma LetsGo(s: Sys, step: Step, t: nat, i: nat)
    requires step == Aborts(t) || (step == Finishes(t) && t in s.open && s.open[t].Counted? && Inv(s))
    ensures var v := Next(s, step);
      && t !in v.open && (step == Aborts(t) ==> v.db == s.db)
      && (i < |v.db.runs| && v.db.runs[i].status == Pending && NobodyElseHas(s, t, i) ==> Untouched(v, i))
  {}

  /** What a claim saw of its row when it looked. */
  ghost predicate SawRoom(s: Sys, c: Claim)
    requires !c.Looked?
  {
    && c.run < |c.view.runs| && c.run < |s.db.runs|
    && Eligible(c.view, c.bot, c.run)
    && s.db.runs[c.run].project == c.view.runs[c.run].project
  }

  ghost predicate ViewOf(s: Sys, view: Db) {
    |view.runs| <= |s.db.runs| && forall i :: 0 <= i < |view.runs| ==> view.runs[i].project == s.db.runs[i].project
  }

  ghost predicate Views(s: Sys) {
    && (forall t :: t in s.open ==> ViewOf(s, s.open[t].view))
    && (forall t :: t in s.open && !s.open[t].Looked? ==> SawRoom(s, s.open[t]))
  }

  lemma ViewsStay(s: Sys, step: Step)
    requires Views(s)
    ensures Views(Next(s, step))
  {
    match step {
      case Looks(_, _, _) =>
      case Takes(t) =>
        if t in s.open && s.open[t].Looked? {
          FirstIsTakeable(s, s.open[t].view, s.open[t].bot, |s.open[t].view.runs|);
        }
      case Recounts(_) =>
      case Finishes(_) =>
      case Aborts(_) =>
      case Queues(_, _, _) =>
      case Ends(_) =>
      case Configures(_, _) =>
    }
  }

  lemma {:induction false} AlwaysViews(s: Sys, script: seq<Step>)
    requires Initial(s)
    ensures Views(After(s, script))
  {
    if script != [] {
      AlwaysViews(s, script[..|script| - 1]);
      ViewsStay(After(s, script[..|script| - 1]), script[|script| - 1]);
    }
  }

  /** A claim is rolled back over the limit only when it raced: since it looked, another Run of the Project started,
      or the Project's limit changed. */
  lemma RolledBackOnlyWhenRaced(s: Sys, script: seq<Step>, t: nat)
    requires Initial(s)
    requires var v := After(s, script); t in v.open && v.open[t].Counted? && OverLimit(v.open[t])
    ensures
      var v := After(s, script);
      var c := v.open[t];
      c.run < |c.view.runs| &&
      var p := c.view.runs[c.run].project;
      c.running - 1 > Load(c.view.runs, p) || c.maxRuns != MaxRuns(c.view, p)
  {
    AlwaysViews(s, script);
    var v := After(s, script);
    assert SawRoom(v, v.open[t]);
  }
}
