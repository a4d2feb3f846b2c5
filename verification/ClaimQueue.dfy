/** The queue as an object: one claim run from its look to its commit. */
module ClaimQueue {
  import opened Lists
  import opened ClaimSteps
  import opened ClaimLaws
  import opened ClaimTheorems

  /** The project's Runs that are running, counted row by row. */
  method CountRunning(runs: seq<Row>, project: nat) returns (n: nat)
    ensures n == Load(runs, project)
  {
    n := 0;
    for i := 0 to |runs|
      invariant n == Load(runs[..i], project)
    {
      assert runs[..i + 1][..i] == runs[..i];
      if runs[i].project == project && runs[i].status == Running {
        n := n + 1;
      }
    }
    assert runs[..|runs|] == runs;
  }

  class Queue {
    var db: Db
    var given: seq<(nat, string)>

    ghost function Sys(): Sys
      reads this
    {
      ClaimSteps.Sys(db, map[], given)
    }

    constructor (db: Db)
      ensures this.db == db && given == []
    {
      this.db, given := db, [];
    }

    /** The oldest Run this Bot may take, in the Project with the fewest Runs going. */
    method Pick(bot: nat) returns (r: Option<nat>)
      ensures r == FirstInLine(Sys(), db, bot, |db.runs|)
    {
      r := None;
      var best := 0;
      for i := 0 to |db.runs|
        invariant r == FirstInLine(Sys(), db, bot, i)
        invariant r.Some? ==> best == Load(db.runs, db.runs[r.value].project)
      {
        var row := db.runs[i];
        if row.status == Pending && row.project in db.projects && !db.projects[row.project].archived
            && (row.bot == Some(bot) || row.bot == None) {
          var busy := CountRunning(db.runs, row.project);
          var most := db.projects[row.project].maxRuns;
          assert Free(Sys(), i);
          if most == 0 || busy < most {
            if r.None? || busy < best || (busy == best && row.createdAt < db.runs[r.value].createdAt) {
              r, best := Some(i), busy;
            }
          }
        }
      }
    }

    /** The rest of a claim that holds row i, whatever happened to the other rows since: the Project is recounted
        with the claimed Run, and a claim over its limit leaves no trace. */
    method RecountAndCommit(i: nat, agent: string) returns (committed: bool)
      requires i < |db.runs|
      modifies this
      ensures var p := old(db).runs[i].project;
        var mine := old(db).runs[i := Given(old(db).runs[i], agent)];
        && (committed <==> MaxRuns(old(db), p) == 0 || Load(mine, p) <= MaxRuns(old(db), p))
        && db == (if committed then old(db).(runs := mine) else old(db))
        && given == old(given) + (if committed then [(i, agent)] else [])
    {
      var before := db.runs;
      db := db.(runs := before[i := before[i].(status := Running, worker := Some(agent))]);
      var p := db.runs[i].project;
      var most := if p in db.projects then db.projects[p].maxRuns else 0;
      var running := CountRunning(db.runs, p);
      if most > 0 && running > most {
        db := db.(runs := before);
        return false;
      }
      given := given + [(i, agent)];
      return true;
    }

    /** With no other claim in between, the claim gets a Run exactly when there is one it may take, and the Run's
        Project is within its limit afterwards. */
    method ClaimOnce(agent: string, bot: nat) returns (got: Option<nat>)
      modifies this
      ensures got == FirstInLine(old(Sys()), old(db), bot, |old(db.runs)|)
      ensures got.None? <==> forall i :: !WaitsFor(old(db), bot, i)
      ensures got.Some? ==>
        && WaitsFor(old(db), bot, got.value)
        && forall i :: WaitsFor(old(db), bot, i) && i != got.value ==> ServedBefore(old(db), got.value, i)
      ensures got.None? ==> Sys() == old(Sys())
      ensures got.Some? ==>
        && got.value < |old(db.runs)|
        && db == old(db).(runs := old(db.runs)[got.value := Given(old(db.runs)[got.value], agent)])
        && given == old(given) + [(got.value, agent)]
        && (var p := db.runs[got.value].project; MaxRuns(db, p) > 0 ==> Load(db.runs, p) <= MaxRuns(db, p))
    {
      got := Pick(bot);
      TakesItsOwnWork(Sys(), db, bot);
      assert forall i :: WaitsFor(db, bot, i) ==> Untouched(Sys(), i);
      if got.None? {
        return;
      }
      var i := got.value;
      FirstIsTakeable(Sys(), db, bot, |db.runs|);
      LoadUpdate(db.runs, i, Given(db.runs[i], agent), db.runs[i].project);
      var committed := RecountAndCommit(i, agent);
      if !committed {
        got := None;
      }
    }
  }

  /** An undisturbed claim, as a script of its statements, never rolls back. */
  lemma AloneNeverRollsBack(s: Sys, t: nat, agent: string, bot: nat)
    requires Inv(s) && s.open == map[]
    ensures
      var r := FirstInLine(s, s.db, bot, |s.db.runs|);
      var v := Finish(Recount(Take(Look(s, t, agent, bot), t), t), t);
      if r.None? then v == s
      else v == s.(db := s.db.(runs := s.db.runs[r.value := Given(s.db.runs[r.value], agent)]),
                   given := s.given + [(r.value, agent)])
  {
    var looked := Look(s, t, agent, bot);
    LooksAlike(s, looked, s.db, bot, |s.db.runs|);
    var r := FirstInLine(s, s.db, bot, |s.db.runs|);
    if r.Some? {
      FirstIsTakeable(s, s.db, bot, |s.db.runs|);
      LoadUpdate(s.db.runs, r.value, Given(s.db.runs[r.value], agent), s.db.runs[r.value].project);
      assert Close(looked, t) == s;
    }
  }

  /** A claim that only looked holds nothing. */
  lemma {:induction false} LooksAlike(s: Sys, v: Sys, view: Db, bot: nat, n: nat)
    requires n <= |view.runs| && s.open == map[] && v.db == s.db
    requires forall t :: t in v.open ==> v.open[t].Looked?
    ensures FirstInLine(v, view, bot, n) == FirstInLine(s, view, bot, n)
  {
    if n > 0 {
      LooksAlike(s, v, view, bot, n - 1);
      assert RowLocked(s, n - 1) == RowLocked(v, n - 1);
    }
  }
}
