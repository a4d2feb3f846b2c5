/** Workers sharing one git remote: fetching, committing, pushing with a lease, merging and deleting branches,
    one git command at a time. */
module GitSteps {
  import opened Lists

  /** Commits are numbered as they are made; history[c] lists the parents of commit c. */
  type Commit = nat
  type History = seq<seq<Commit>>
  type Branch = string

  /** What a Run does with its checkout. A build starts from the branch `from` ("" for the default branch) and
      publishes there, or as the new branch `own`. A merge lands `branch`, at the approved commit when there is one. */
  datatype Job = Build(from: Branch, own: Branch) | Merge(branch: Branch, approved: Option<Commit>)

  /** How far a checkout got. `tip` is the branch's commit that was merged. */
  datatype Phase = Ready | Committed | Merged(tip: Commit) | Landed(tip: Commit) | Over

  /** A Run's checkout: `base` is where it started, `head` what its own branch points at. */
  datatype Space = Space(worker: nat, job: Job, start: Branch, base: Commit, def: Branch, continues: bool,
                         head: Commit, phase: Phase)

  /** What one worker's git command sees: every commit, the remote's branches and its mirror of them. */
  datatype Site = Site(history: History, branches: map<Branch, Commit>, mirror: map<Branch, Commit>)

  /** x is y or one of its ancestors. */
  predicate Has(h: History, x: Commit, y: Commit)
    decreases y
  {
    x == y || (y < |h| && exists p :: p in h[y] && p < y && Has(h, x, p))
  }

  function From(job: Job): Branch {
    if job.Build? then job.from else ""
  }

  // --- the git commands of one checkout ---

  /** Refreshes the mirror, deleted branches included, and checks out the tip of the branch to start from. */
  function Fetch(s: Site, worker: nat, def: Branch, job: Job): (Site, Option<Space>) {
    var start := if From(job) != "" then From(job) else def;
    var t := s.(mirror := s.branches);
    if start in t.mirror then
      (t, Some(Space(worker, job, start, t.mirror[start], def, From(job) != "", t.mirror[start], Ready)))
    else (t, None)
  }

  /** Records the files as one commit; without changes there is nothing to deliver. */
  function CommitWork(s: Site, w: Space, changed: bool): (Site, Space) {
    if w.phase != Ready || !w.job.Build? then (s, w)
    else if changed then (s.(history := s.history + [[w.head]]), w.(head := |s.history|, phase := Committed))
    else (s, w.(phase := Over))
  }

  function Target(w: Space): Branch
    requires w.job.Build?
  {
    if w.job.from == "" then w.job.own else w.job.from
  }

  /** The lease: the branch is still where the Run started, or does not exist yet. */
  predicate LeaseHolds(s: Site, w: Space, target: Branch) {
    if w.continues && target == w.start then target in s.branches && s.branches[target] == w.base
    else target !in s.branches
  }

  function Push(s: Site, w: Space): (Site, Space) {
    if w.phase != Committed || !w.job.Build? then (s, w)
    else
      var target := Target(w);
      if target == w.def then (s, w.(phase := Over))
      else if LeaseHolds(s, w, target) then (s.(branches := s.branches[target := w.head]), w.(phase := Over))
      else (s, w.(phase := Over))
  }

  /** Merges the branch's tip, as the worker's mirror has it, into the checkout of the default branch. */
  function MergeHere(s: Site, w: Space, clean: bool): (Site, Space) {
    if w.phase != Ready || !w.job.Merge? then (s, w)
    else if w.job.branch == w.start || w.job.branch !in s.mirror then (s, w.(phase := Over))
    else
      var tip := s.mirror[w.job.branch];
      if w.job.approved.Some? && tip != w.job.approved.value then (s, w.(phase := Over))
      else if Has(s.history, tip, w.head) then (s, w.(phase := Merged(tip))) // already up to date
      else if clean then (s.(history := s.history + [[w.head, tip]]), w.(head := |s.history|, phase := Merged(tip)))
      else (s, w.(phase := Over))
  }

  /** A plain push: the remote takes it only as a fast-forward. */
  predicate FastForward(s: Site, b: Branch, c: Commit) {
    b in s.branches ==> Has(s.history, s.branches[b], c)
  }

  function Land(s: Site, w: Space): (Site, Space) {
    if !w.phase.Merged? then (s, w)
    else if FastForward(s, w.start, w.head) then
      (s.(branches := s.branches[w.start := w.head]), w.(phase := Landed(w.phase.tip)))
    else (s, w.(phase := Over))
  }

  /** The remote still has the branch at the commit that was merged. */
  predicate CanDelete(s: Site, w: Space) {
    && w.phase.Landed? && w.job.Merge?
    && w.job.branch in s.branches && s.branches[w.job.branch] == w.phase.tip
  }

  function Delete(s: Site, w: Space): (Site, Space) {
    if !w.phase.Landed? then (s, w)
    else if CanDelete(s, w) then (s.(branches := s.branches - {w.job.branch}), w.(phase := Over))
    else (s, w.(phase := Over))
  }

  // --- everyone together ---

  /** tips is history: every commit that was ever a branch's tip on the remote. */
  datatype World = World(history: History, branches: map<Branch, Commit>, mirrors: map<nat, map<Branch, Commit>>,
                         spaces: map<nat, Space>, tips: set<Commit>)

  /** People and other tools push too, by the usual rules: new commits, new branches and fast-forwards. */
  datatype Step =
    | StartRun(run: nat, worker: nat, def: Branch, job: Job)
    | Commits(run: nat, changed: bool)
    | Pushes(run: nat)
    | Merges(run: nat, clean: bool)
    | Lands(run: nat)
    | Deletes(run: nat)
    | OthersCommit(parents: seq<Commit>)
    | OthersPush(branch: Branch, commit: Commit)

  function SiteOf(w: World, worker: nat): Site {
    Site(w.history, w.branches, if worker in w.mirrors then w.mirrors[worker] else map[])
  }

  function Tips(branches: map<Branch, Commit>): set<Commit> {
    set b | b in branches :: branches[b]
  }

  function Put(w: World, worker: nat, s: Site): World {
    World(s.history, s.branches, w.mirrors[worker := s.mirror], w.spaces, w.tips + Tips(s.branches))
  }

  function PutRun(w: World, run: nat, r: (Site, Space)): World
    requires run in w.spaces
  {
    Put(w, w.spaces[run].worker, r.0).(spaces := w.spaces[run := r.1])
  }

  function Next(w: World, step: Step): World {
    match step
    case StartRun(run, worker, def, job) =>
      if run in w.spaces then w
      else
        var r := Fetch(SiteOf(w, worker), worker, def, job);
        var v := Put(w, worker, r.0);
        if r.1.Some? then v.(spaces := w.spaces[run := r.1.value]) else v
    case Commits(run, changed) =>
      if run !in w.spaces then w
      else PutRun(w, run, CommitWork(SiteOf(w, w.spaces[run].worker), w.spaces[run], changed))
    case Pushes(run) =>
      if run !in w.spaces then w else PutRun(w, run, Push(SiteOf(w, w.spaces[run].worker), w.spaces[run]))
    case Merges(run, clean) =>
      if run !in w.spaces then w
      else PutRun(w, run, MergeHere(SiteOf(w, w.spaces[run].worker), w.spaces[run], clean))
    case Lands(run) =>
      if run !in w.spaces then w else PutRun(w, run, Land(SiteOf(w, w.spaces[run].worker), w.spaces[run]))
    case Deletes(run) =>
      if run !in w.spaces then w else PutRun(w, run, Delete(SiteOf(w, w.spaces[run].worker), w.spaces[run]))
    case OthersCommit(parents) =>
      if forall p :: p in parents ==> p < |w.history| then w.(history := w.history + [parents]) else w
    case OthersPush(branch, commit) =>
      if commit < |w.history| && FastForward(SiteOf(w, 0), branch, commit) then
        w.(branches := w.branches[branch := commit], tips := w.tips + {commit})
      else w
  }

  function After(w: World, script: seq<Step>): World {
    if script == [] then w else Next(After(w, script[..|script| - 1]), script[|script| - 1])
  }

  /** A remote with some branches and no Run started yet. */
  ghost predicate Initial(w: World) {
    && w.mirrors == map[] && w.spaces == map[]
    && w.tips == Tips(w.branches)
    && (forall b :: b in w.branches ==> w.branches[b] < |w.history|)
    && forall c, p :: 0 <= c < |w.history| && p in w.history[c] ==> p < c
  }
}
