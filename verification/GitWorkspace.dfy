/** A Run's checkout as an object over the shared remote and its worker's mirror: the commands GitSteps interleaves. */
module GitWorkspace {
  import opened Lists
  import opened GitSteps

  /** The remote's branches, and every commit made so far. */
  class Remote {
    var history: History
    var branches: map<Branch, Commit>

    constructor (h: History, b: map<Branch, Commit>)
      ensures history == h && branches == b
    {
      history, branches := h, b;
    }
  }

  /** One worker's copy of the remote's branches, shared by its Runs. */
  class Mirror {
    const worker: nat
    var refs: map<Branch, Commit>

    constructor (worker: nat)
      ensures this.worker == worker && refs == map[]
    {
      this.worker, refs := worker, map[];
    }
  }

  class Workspace {
    const remote: Remote
    const mirror: Mirror
    const job: Job
    var start: Branch
    var base: Commit
    var def: Branch
    var continues: bool
    var head: Commit
    var phase: Phase

    ghost function Site(): Site
      reads remote, mirror
    {
      GitSteps.Site(remote.history, remote.branches, mirror.refs)
    }

    ghost function Space(): Space
      reads this
    {
      GitSteps.Space(mirror.worker, job, start, base, def, continues, head, phase)
    }

    constructor (remote: Remote, mirror: Mirror, job: Job)
      ensures this.remote == remote && this.mirror == mirror && this.job == job
      ensures phase == Over
    {
      this.remote, this.mirror, this.job := remote, mirror, job;
      start, base, def, continues, head, phase := "", 0, "", false, 0, Over;
    }

    /** Refreshes the mirror and checks out the tip to start from; fails when the remote has no such branch. */
    method FetchAndAdd(defaultBranch: Branch) returns (ok: bool)
      modifies this, mirror
      ensures var r := Fetch(old(Site()), mirror.worker, defaultBranch, job);
        Site() == r.0 && ok == r.1.Some? && (if ok then Space() == r.1.value else Space() == old(Space()))
      ensures mirror.refs == remote.branches
      ensures ok <==> (if job.Build? && job.from != "" then job.from else defaultBranch) in remote.branches
      ensures ok ==>
        && start == (if job.Build? && job.from != "" then job.from else defaultBranch) && def == defaultBranch
        && head == base == remote.branches[start] && phase == Ready
        && (continues <==> job.Build? && job.from != "")
    {
      mirror.refs := remote.branches;
      var from := defaultBranch;
      var named := job.Build? && job.from != "";
      if named {
        from := job.from;
      }
      if from !in mirror.refs {
        return false;
      }
      start, base, def, continues := from, mirror.refs[from], defaultBranch, named;
      head, phase := base, Ready;
      return true;
    }

    /** Records the agent's files and says whether there is anything to deliver. */
    method Commit(changed: bool) returns (ahead: bool)
      requires phase == Ready && job.Build? && head == base < |remote.history|
      modifies this, remote`history
      ensures (Site(), Space()) == CommitWork(old(Site()), old(Space()), changed)
      ensures ahead <==> changed
      ensures changed ==>
        && remote.history == old(remote.history) + [[old(head)]] && head == |old(remote.history)| && phase == Committed
      ensures !changed ==> remote.history == old(remote.history) && head == old(head) && phase == Over
    {
      if changed {
        var made := |remote.history|;
        remote.history := remote.history + [[head]];
        head := made;
        phase := Committed;
      } else {
        phase := Over;
      }
      ahead := head != base;
    }

    /** Publishes the work; never to the default branch, never over somebody else's commits. */
    method Push() returns (ok: bool)
      requires phase == Committed && job.Build?
      modifies this, remote`branches
      ensures (Site(), Space()) == GitSteps.Push(old(Site()), old(Space()))
      ensures var target := if job.from == "" then job.own else job.from;
        && (ok <==>
              && target != def
              && if continues && target == start
                 then target in old(remote.branches) && old(remote.branches)[target] == base
                 else target !in old(remote.branches))
        && remote.branches == if ok then old(remote.branches)[target := head] else old(remote.branches)
      ensures head == old(head) && phase == Over
    {
      var target := if job.from == "" then job.own else job.from;
      phase := Over;
      if target == def {
        return false;
      }
      var lease: Option<Commit> := None;
      if continues && target == start {
        lease := Some(base);
      }
      var current: Option<Commit> := None;
      if target in remote.branches {
        current := Some(remote.branches[target]);
      }
      if current != lease {
        return false;
      }
      remote.branches := remote.branches[target := head];
      return true;
    }

    /** Merges the branch's mirrored tip into the checkout. */
    method MergeLocally(clean: bool) returns (ok: bool)
      requires phase == Ready && job.Merge?
      modifies this, remote`history
      ensures (Site(), Space()) == MergeHere(old(Site()), old(Space()), clean)
      ensures ok <==>
        && job.branch != start && job.branch in mirror.refs
        && (job.approved.Some? ==> mirror.refs[job.branch] == job.approved.value)
        && (Has(old(remote.history), mirror.refs[job.branch], old(head)) || clean)
      ensures ok ==>
        && phase == Merged(mirror.refs[job.branch])
        && if Has(old(remote.history), mirror.refs[job.branch], old(head))
           then remote.history == old(remote.history) && head == old(head)
           else remote.history == old(remote.history) + [[old(head), mirror.refs[job.branch]]]
                && head == |old(remote.history)|
      ensures !ok ==> phase == Over && remote.history == old(remote.history) && head == old(head)
    {
      phase := Over;
      if job.branch == start || job.branch !in mirror.refs {
        return false;
      }
      var tip := mirror.refs[job.branch];
      if job.approved.Some? && tip != job.approved.value {
        return false;
      }
      if !Has(remote.history, tip, head) {
        if !clean {
          return false;
        }
        var made := |remote.history|;
        remote.history := remote.history + [[head, tip]];
        head := made;
      }
      phase := Merged(tip);
      return true;
    }

    method PushMerge() returns (ok: bool)
      requires phase.Merged?
      modifies this, remote`branches
      ensures (Site(), Space()) == Land(old(Site()), old(Space()))
      ensures ok <==> (start in old(remote.branches) ==> Has(remote.history, old(remote.branches)[start], head))
      ensures remote.branches == if ok then old(remote.branches)[start := head] else old(remote.branches)
      ensures phase == (if ok then Landed(old(phase).tip) else Over) && head == old(head)
    {
      if start in remote.branches && !Has(remote.history, remote.branches[start], head) {
        phase := Over;
        return false;
      }
      remote.branches := remote.branches[start := head];
      phase := Landed(phase.tip);
      return true;
    }

    method DeleteBranch()
      requires phase.Landed? && job.Merge?
      modifies this, remote`branches
      ensures (Site(), Space()) == Delete(old(Site()), old(Space()))
      ensures remote.branches ==
                if job.branch in old(remote.branches) && old(remote.branches)[job.branch] == old(phase).tip
                then old(remote.branches) - {job.branch} else old(remote.branches)
      ensures phase == Over && head == old(head)
    {
      if job.branch in remote.branches && remote.branches[job.branch] == phase.tip {
        remote.branches := remote.branches - {job.branch};
      }
      phase := Over;
    }

    /** The whole merge, with nobody in between: the approved commit lands, or nothing changes on the remote. */
    method Merge(clean: bool) returns (ok: bool)
      requires phase == Ready && job.Merge? && head == base
      modifies this, remote
      ensures ok ==>
        && job.branch in mirror.refs && job.branch != start
        && (job.approved.Some? ==> mirror.refs[job.branch] == job.approved.value)
        && remote.branches == (old(remote.branches)[start := head] -
             (if job.branch in old(remote.branches) && old(remote.branches)[job.branch] == mirror.refs[job.branch]
              then {job.branch} else {}))
      ensures !ok ==> remote.branches == old(remote.branches)
    {
      ok := MergeLocally(clean);
      if !ok {
        return;
      }
      ok := PushMerge();
      if ok {
        DeleteBranch();
      }
    }
  }
}
