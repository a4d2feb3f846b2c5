/** What the git protocol keeps, over every interleaving of workers and of other people pushing. */
module GitLaws {
  import opened Lists
  import opened GitSteps

  // --- ancestry ---

  lemma {:induction false} HasIsOlder(h: History, x: Commit, y: Commit)
    requires Has(h, x, y)
    ensures x <= y
    decreases y
  {
    if x != y {
      var p :| p in h[y] && p < y && Has(h, x, p);
      HasIsOlder(h, x, p);
    }
  }

  lemma {:induction false} HasThrough(h: History, x: Commit, y: Commit, z: Commit)
    requires Has(h, x, y) && Has(h, y, z)
    ensures Has(h, x, z)
    decreases z
  {
    if y != z {
      var p :| p in h[z] && p < z && Has(h, y, p);
      HasThrough(h, x, y, p);
    }
  }

  /** New commits change no existing commit's ancestors. */
  lemma {:induction false} HasStays(h: History, more: History, x: Commit, y: Commit)
    requires y < |h|
    ensures Has(h + more, x, y) == Has(h, x, y)
    decreases y
  {
    assert (h + more)[y] == h[y];
    forall p | p in h[y] && p < y ensures Has(h + more, x, p) == Has(h, x, p) {
      HasStays(h, more, x, p);
    }
  }

  /** A new commit has exactly itself and its parents' ancestors. */
  lemma NewCommitHas(h: History, parents: seq<Commit>, x: Commit)
    requires forall p :: p in parents ==> p < |h|
    ensures Has(h + [parents], x, |h|) <==> x == |h| || exists p :: p in parents && Has(h, x, p)
  {
    assert (h + [parents])[|h|] == parents;
    forall p | p in parents ensures Has(h + [parents], x, p) == Has(h, x, p) {
      HasStays(h, [parents], x, p);
    }
  }

  // --- what some branch still holds ---

  ghost predicate Held(h: History, branches: map<Branch, Commit>, c: Commit) {
    exists b :: b in branches && Has(h, c, branches[b])
  }

  ghost predicate Kept(h: History, branches: map<Branch, Commit>, tips: set<Commit>) {
    forall c :: c in tips ==> Held(h, branches, c)
  }

  ghost predicate InRange(branches: map<Branch, Commit>, n: nat) {
    forall b :: b in branches ==> branches[b] < n
  }

  lemma HeldStays(h: History, more: History, branches: map<Branch, Commit>, c: Commit)
    requires Held(h, branches, c) && InRange(branches, |h|)
    ensures Held(h + more, branches, c)
  {
    var b :| b in branches && Has(h, c, branches[b]);
    HasStays(h, more, c, branches[b]);
  }

  lemma KeptStays(h: History, more: History, branches: map<Branch, Commit>, tips: set<Commit>)
    requires Kept(h, branches, tips) && InRange(branches, |h|)
    ensures Kept(h + more, branches, tips)
  {
    forall c | c in tips ensures Held(h + more, branches, c) {
      HeldStays(h, more, branches, c);
    }
  }

  lemma HeldForward(h: History, branches: map<Branch, Commit>, b: Branch, to: Commit, c: Commit)
    requires Held(h, branches, c)
    requires b in branches ==> Has(h, branches[b], to)
    ensures Held(h, branches[b := to], c)
  {
    var a :| a in branches && Has(h, c, branches[a]);
    if a == b {
      HasThrough(h, c, branches[b], to);
      assert branches[b := to][b] == to;
    } else {
      assert branches[b := to][a] == branches[a];
    }
  }

  lemma KeptForward(h: History, branches: map<Branch, Commit>, tips: set<Commit>, b: Branch, to: Commit)
    requires Kept(h, branches, tips)
    requires b in branches ==> Has(h, branches[b], to)
    ensures Kept(h, branches[b := to], tips + {to})
  {
    forall c | c in tips + {to} ensures Held(h, branches[b := to], c) {
      if c == to {
        assert branches[b := to][b] == to;
      } else {
        HeldForward(h, branches, b, to, c);
      }
    }
  }

  /** Deleting a branch loses nothing exactly when another branch holds its tip. */
  lemma DeletedIsKept(h: History, branches: map<Branch, Commit>, tips: set<Commit>, b: Branch)
    requires Kept(h, branches, tips) && b in branches && branches[b] in tips
    ensures Kept(h, branches - {b}, tips) <==> Held(h, branches - {b}, branches[b])
  {
    var rest := branches - {b};
    if Held(h, rest, branches[b]) {
      var d :| d in rest && Has(h, branches[b], rest[d]);
      forall c | c in tips ensures Held(h, rest, c) {
        var a :| a in branches && Has(h, c, branches[a]);
        if a == b {
          HasThrough(h, c, branches[b], rest[d]);
        } else {
          assert a in rest && rest[a] == branches[a];
        }
      }
    }
  }

  /** A tip that some other commit, once a tip itself, has among its ancestors is held by another branch. */
  lemma NewerTipHolds(h: History, branches: map<Branch, Commit>, tips: set<Commit>, b: Branch, head: Commit)
    requires Kept(h, branches, tips) && b in branches
    requires head in tips && Has(h, branches[b], head) && head != branches[b]
    ensures Held(h, branches - {b}, branches[b])
  {
    var tip := branches[b];
    var a :| a in branches && Has(h, head, branches[a]);
    if a == b {
      HasIsOlder(h, head, tip);
      HasIsOlder(h, tip, head);
    } else {
      HasThrough(h, tip, head, branches[a]);
      assert a in branches - {b} && (branches - {b})[a] == branches[a];
    }
  }

  // --- the invariant ---

  ghost predicate SpaceOk(h: History, tips: set<Commit>, w: Space) {
    && w.base in tips && w.head < |h| && Has(h, w.base, w.head)
    && (w.continues <==> From(w.job) != "")
    && w.start == (if w.continues then From(w.job) else w.def)
    && (w.phase == Ready ==> w.head == w.base)
    && (w.phase == Committed ==> w.job.Build?)
    && (w.phase.Merged? || w.phase.Landed? ==> MergeOk(h, tips, w, w.phase.tip))
    && (w.phase.Landed? ==> w.head in tips)
  }

  /** A merge holds the base, the branch's tip and nothing else; the tip is the approved commit. */
  ghost predicate MergeOk(h: History, tips: set<Commit>, w: Space, tip: Commit) {
    && w.job.Merge? && w.job.branch != w.start
    && tip in tips && Has(h, tip, w.head)
    && (w.job.approved.Some? ==> tip == w.job.approved.value)
    && (w.head == w.base || (w.head < |h| && h[w.head] == [w.base, tip]))
  }

  ghost predicate SpacesOk(h: History, tips: set<Commit>, spaces: map<nat, Space>) {
    forall run :: run in spaces ==> SpaceOk(h, tips, spaces[run])
  }

  ghost predicate MirrorsOk(mirrors: map<nat, map<Branch, Commit>>, tips: set<Commit>) {
    forall k :: k in mirrors ==> Tips(mirrors[k]) <= tips
  }

  ghost predicate Valid(w: World) {
    && Tips(w.branches) <= w.tips
    && (forall c :: c in w.tips ==> c < |w.history|)
    && MirrorsOk(w.mirrors, w.tips)
    && SpacesOk(w.history, w.tips, w.spaces)
  }

  lemma SpaceStays(h: History, more: History, tips: set<Commit>, also: set<Commit>, w: Space)
    requires SpaceOk(h, tips, w)
    ensures SpaceOk(h + more, tips + also, w)
  {
    HasStays(h, more, w.base, w.head);
    if w.phase.Merged? || w.phase.Landed? {
      HasStays(h, more, w.phase.tip, w.head);
    }
  }

  lemma SpacesStay(h: History, more: History, tips: set<Commit>, also: set<Commit>, spaces: map<nat, Space>)
    requires SpacesOk(h, tips, spaces)
    ensures SpacesOk(h + more, tips + also, spaces)
  {
    forall run | run in spaces ensures SpaceOk(h + more, tips + also, spaces[run]) {
      SpaceStays(h, more, tips, also, spaces[run]);
    }
  }

  lemma TipsIn(branches: map<Branch, Commit>, tips: set<Commit>, n: nat)
    requires Tips(branches) <= tips && forall c :: c in tips ==> c < n
    ensures InRange(branches, n)
    ensures forall b :: b in branches ==> branches[b] in tips
  {
    forall b | b in branches ensures branches[b] in tips {
      assert branches[b] in Tips(branches);
    }
  }

  /** What one git command of one Run may do to the site, and what it leaves the Run with. */
  ghost predicate SiteStep(s: Site, w: Space, tips: set<Commit>, t: Site, v: Space) {
    && s.history <= t.history
    && Tips(t.mirror) <= tips
    && (forall c :: c in Tips(t.branches) ==> c < |t.history|)
    && SpaceOk(t.history, tips + Tips(t.branches), v)
  }

  lemma CommitStep(s: Site, w: Space, tips: set<Commit>, changed: bool)
    requires SpaceOk(s.history, tips, w) && Tips(s.branches) <= tips && Tips(s.mirror) <= tips
    requires forall c :: c in tips ==> c < |s.history|
    ensures var r := CommitWork(s, w, changed); SiteStep(s, w, tips, r.0, r.1)
  {
    assert tips + Tips(s.branches) == tips;
    if w.phase == Ready && w.job.Build? && changed {
      NewCommitHas(s.history, [w.head], w.base);
      assert w.head in [w.head];
    }
  }

  lemma TipsOfUpdate(branches: map<Branch, Commit>, b: Branch, c: Commit, tips: set<Commit>)
    requires Tips(branches) <= tips
    ensures c in Tips(branches[b := c])
    ensures tips + Tips(branches[b := c]) == tips + {c}
  {
    assert branches[b := c][b] == c;
    forall x | x in Tips(branches[b := c]) ensures x in tips + {c} {
      var a :| a in branches[b := c] && branches[b := c][a] == x;
      if a != b {
        assert x in Tips(branches);
      }
    }
  }

  lemma PushStep(s: Site, w: Space, tips: set<Commit>)
    requires SpaceOk(s.history, tips, w) && Tips(s.branches) <= tips && Tips(s.mirror) <= tips
    requires forall c :: c in tips ==> c < |s.history|
    ensures var r := Push(s, w); SiteStep(s, w, tips, r.0, r.1)
  {
    assert tips + Tips(s.branches) == tips;
    if w.phase == Committed && w.job.Build? {
      TipsOfUpdate(s.branches, Target(w), w.head, tips);
      SpaceStays(s.history, [], tips, {w.head}, w);
      assert s.history + [] == s.history;
      var now := s.branches[Target(w) := w.head];
      forall c | c in Tips(now) ensures c < |s.history| {
        assert c in tips + Tips(now);
      }
    }
  }

  lemma MergeStep(s: Site, w: Space, tips: set<Commit>, clean: bool)
    requires SpaceOk(s.history, tips, w) && Tips(s.branches) <= tips && Tips(s.mirror) <= tips
    requires forall c :: c in tips ==> c < |s.history|
    ensures var r := MergeHere(s, w, clean); SiteStep(s, w, tips, r.0, r.1)
  {
    assert tips + Tips(s.branches) == tips;
    if w.phase == Ready && w.job.Merge? && w.job.branch != w.start && w.job.branch in s.mirror {
      var tip := s.mirror[w.job.branch];
      assert tip in Tips(s.mirror);
      NewCommitHas(s.history, [w.head, tip], tip);
      NewCommitHas(s.history, [w.head, tip], w.base);
      assert tip in [w.head, tip] && w.head in [w.head, tip];
    }
  }

  lemma LandStep(s: Site, w: Space, tips: set<Commit>)
    requires SpaceOk(s.history, tips, w) && Tips(s.branches) <= tips && Tips(s.mirror) <= tips
    requires forall c :: c in tips ==> c < |s.history|
    ensures var r := Land(s, w); SiteStep(s, w, tips, r.0, r.1)
  {
    assert tips + Tips(s.branches) == tips;
    if w.phase.Merged? {
      TipsOfUpdate(s.branches, w.start, w.head, tips);
      SpaceStays(s.history, [], tips, {w.head}, w);
      assert s.history + [] == s.history;
      var now := s.branches[w.start := w.head];
      forall c | c in Tips(now) ensures c < |s.history| {
        assert c in tips + Tips(now);
      }
    }
  }

  lemma DeleteStep(s: Site, w: Space, tips: set<Commit>)
    requires SpaceOk(s.history, tips, w) && Tips(s.branches) <= tips && Tips(s.mirror) <= tips
    requires forall c :: c in tips ==> c < |s.history|
    ensures var r := Delete(s, w); SiteStep(s, w, tips, r.0, r.1) && Tips(r.0.branches) <= tips
  {
    var r := Delete(s, w);
    forall c | c in Tips(r.0.branches) ensures c in tips {
      var b :| b in r.0.branches && r.0.branches[b] == c;
      assert c in Tips(s.branches);
    }
    assert tips + Tips(r.0.branches) == tips;
  }

  lemma MirrorOf(w: World, worker: nat)
    requires Valid(w)
    ensures Tips(SiteOf(w, worker).mirror) <= w.tips
  {
    assert Tips(map[]) == {};
  }

  /** Putting such a result back keeps the whole world well formed. */
  lemma PutKeeps(w: World, run: nat, t: Site, v: Space)
    requires Valid(w) && run in w.spaces
    requires SiteStep(SiteOf(w, w.spaces[run].worker), w.spaces[run], w.tips, t, v)
    ensures Valid(PutRun(w, run, (t, v)))
  {
    var also := Tips(t.branches);
    var more := t.history[|w.history|..];
    assert t.history == w.history + more;
    SpacesStay(w.history, more, w.tips, also, w.spaces);
  }

  lemma FetchKeeps(w: World, run: nat, worker: nat, def: Branch, job: Job)
    requires Valid(w) && run !in w.spaces
    ensures Valid(Next(w, StartRun(run, worker, def, job)))
  {
    var s := SiteOf(w, worker);
    var r := Fetch(s, worker, def, job);
    assert w.tips + Tips(w.branches) == w.tips;
    TipsIn(w.branches, w.tips, |w.history|);
  }

  lemma OthersKeep(w: World, step: Step)
    requires Valid(w) && (step.OthersCommit? || step.OthersPush?)
    ensures Valid(Next(w, step))
  {
    match step
    case OthersCommit(parents) =>
      SpacesStay(w.history, [parents], w.tips, {}, w.spaces);
      assert w.tips + {} == w.tips;
    case OthersPush(branch, commit) =>
      TipsOfUpdate(w.branches, branch, commit, w.tips);
      SpacesStay(w.history, [], w.tips, {commit}, w.spaces);
      assert w.history + [] == w.history;
  }

  lemma StepKeeps(w: World, step: Step)
    requires Valid(w)
    ensures Valid(Next(w, step))
  {
    match step {
      case StartRun(run, worker, def, job) => if run !in w.spaces { FetchKeeps(w, run, worker, def, job); }
      case Commits(run, changed) => if run in w.spaces {
        var x := w.spaces[run];
        var s := SiteOf(w, x.worker);
        MirrorOf(w, x.worker);
        CommitStep(s, x, w.tips, changed);
        PutKeeps(w, run, CommitWork(s, x, changed).0, CommitWork(s, x, changed).1);
      }
      case Pushes(run) => if run in w.spaces {
        var x := w.spaces[run];
        var s := SiteOf(w, x.worker);
        MirrorOf(w, x.worker);
        PushStep(s, x, w.tips);
        PutKeeps(w, run, Push(s, x).0, Push(s, x).1);
      }
      case Merges(run, clean) => if run in w.spaces {
        var x := w.spaces[run];
        var s := SiteOf(w, x.worker);
        MirrorOf(w, x.worker);
        MergeStep(s, x, w.tips, clean);
        PutKeeps(w, run, MergeHere(s, x, clean).0, MergeHere(s, x, clean).1);
      }
      case Lands(run) => if run in w.spaces {
        var x := w.spaces[run];
        var s := SiteOf(w, x.worker);
        MirrorOf(w, x.worker);
        LandStep(s, x, w.tips);
        PutKeeps(w, run, Land(s, x).0, Land(s, x).1);
      }
      case Deletes(run) => if run in w.spaces {
        var x := w.spaces[run];
        var s := SiteOf(w, x.worker);
        MirrorOf(w, x.worker);
        DeleteStep(s, x, w.tips);
        PutKeeps(w, run, Delete(s, x).0, Delete(s, x).1);
      }
      case OthersCommit(parents) => OthersKeep(w, step);
      case OthersPush(branch, commit) => OthersKeep(w, step);
    }
  }

  lemma {:induction false} AlwaysValid(w: World, script: seq<Step>)
    requires Initial(w)
    ensures Valid(After(w, script))
  {
    if script != [] {
      AlwaysValid(w, script[..|script| - 1]);
      StepKeeps(After(w, script[..|script| - 1]), script[|script| - 1]);
    }
  }
}
