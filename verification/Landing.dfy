/** From the approval on the Server to the commit on the default branch: the Task machine and git together. */
module Landing {
  import opened Lists
  import Models
  import TaskMachine
  import TaskLaws
  import TaskMerge
  import TaskVouch
  import GitSteps
  import GitTheorems

  /** What a merge Run makes its worker do: merge the Task's branch, as the claim told it, at the Run's commit.
      `number` is the commit behind a commit id. */
  function JobOf(r: Models.Run, claimed: TaskMachine.State, number: string -> GitSteps.Commit): GitSteps.Job {
    GitSteps.Merge(claimed.task.branch, if r.commit == "" then None else Some(number(r.commit)))
  }

  /** Transaction c of the script gave the Run to a worker. */
  ghost predicate ClaimedAt(s: TaskMachine.State, script: seq<TaskMachine.Input>, c: nat, id: Models.Id)
    requires c < |script|
  {
    var op := script[c].op;
    && op.OpClaim? && op.run == id && TaskMachine.Fresh(TaskMachine.After(s, script[..c]), script[c].tx)
    && TaskMachine.Claim(TaskMachine.After(s, script[..c]), op.agent, op.bot, id, op.until, script[c].tx).Committed?
  }

  /** Main result: whatever the Server and all the workers do, when the worker that claimed a merge Run moves the
      default branch, what it adds there is the history of one commit, and the merge commit itself. That commit was
      the tip of the Task's own branch, and it was spoken for when the merge was queued. */
  lemma OnlyVouchedWorkLands(s: TaskMachine.State, script: seq<TaskMachine.Input>, r: Models.Run, c: nat,
                             w: GitSteps.World, steps: seq<GitSteps.Step>, run: nat,
                             number: string -> GitSteps.Commit, x: GitSteps.Commit) returns (n: nat)
    requires TaskLaws.NewTask(s) && TaskMerge.AllCareful(s, script)
    requires r in TaskMachine.After(s, script).runs && r.kind.Merge?
    requires c < |script| && ClaimedAt(s, script, c, r.id)
    requires GitSteps.Initial(w)
    requires
      var v := GitSteps.After(w, steps);
      run in v.spaces && v.spaces[run].job == JobOf(r, TaskMachine.After(s, script[..c]), number)
      && v.spaces[run].phase.Merged?
      && GitSteps.Next(v, GitSteps.Lands(run)).spaces[run].phase.Landed?
    ensures n < c && TaskVouch.QueuedAt(s, script, n, r.id)
    ensures r.commit != "" && TaskVouch.SpokenFor(TaskMachine.After(s, script[..n + 1]), script[n].op, r.commit)
    ensures TaskMachine.After(s, script[..c]).task.branch != ""
    ensures
      var v := GitSteps.After(w, steps);
      var m := v.spaces[run];
      var after := GitSteps.Next(v, GitSteps.Lands(run));
      && m.job.branch == TaskMachine.After(s, script[..c]).task.branch
      && m.phase.tip == number(r.commit) && m.start in after.branches
      && (GitSteps.Has(after.history, x, after.branches[m.start]) <==>
            || x == m.head
            || GitSteps.Has(v.history, x, m.base)
            || GitSteps.Has(v.history, x, number(r.commit)))
  {
    n := TaskVouch.WhatLandsWasApproved(s, script, r);
    QueuedBeforeClaimed(s, script, n, c, r.id);
    BranchStays(s, script, n + 1, c);
    GitTheorems.LandsWhatWasApproved(w, steps, run, x);
  }

  /** A Run is queued before it is claimed. */
  lemma QueuedBeforeClaimed(s: TaskMachine.State, script: seq<TaskMachine.Input>, n: nat, c: nat, id: Models.Id)
    requires TaskLaws.NewTask(s) && n < |script| && c < |script|
    requires TaskVouch.QueuedAt(s, script, n, id) && ClaimedAt(s, script, c, id)
    ensures n < c
  {
    var a := TaskMachine.After(s, script[..c]);
    var i := TaskMachine.RunAt(a.runs, id);
    assert a.runs[i] in a.runs;
    if c <= n {
      TaskVouch.RunStays(s, script, c, n, id);
    }
  }

  /** A Task that has a branch keeps having one. */
  lemma {:induction false} BranchStays(s: TaskMachine.State, script: seq<TaskMachine.Input>, m: nat, n: nat)
    requires m <= n <= |script| && TaskMachine.After(s, script[..m]).task.branch != ""
    ensures TaskMachine.After(s, script[..n]).task.branch != ""
  {
    if m < n {
      BranchStays(s, script, m, n - 1);
      TaskVouch.AfterOneMore(s, script, n - 1);
      StepKeepsBranch(TaskMachine.After(s, script[..n - 1]), script[n - 1].op, script[n - 1].tx);
    }
  }

  lemma StepKeepsBranch(s: TaskMachine.State, op: TaskMachine.Op, tx: TaskMachine.Tx)
    requires s.task.branch != ""
    ensures TaskMachine.Step(s, op, tx).task.branch != ""
  {}
}
