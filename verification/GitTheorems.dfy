/** No commit that was ever published gets lost, builds never move the default branch, and a merge lands exactly
    what was approved: for every interleaving of the git commands. */
module GitTheorems {
  import opened Lists
  import opened GitSteps
  import opened GitLaws

  ghost predicate AllKept(w: World) {
    Kept(w.history, w.branches, w.tips)
  }

  predicate Deleting(w: World, step: Step) {
    step.Deletes? && step.run in w.spaces && CanDelete(SiteOf(w, w.spaces[step.run].worker), w.spaces[step.run])
  }

  /** A merge that found the branch exactly at its own base made no commit of its own: deleting the branch then
      needs some other branch to hold that commit. */
  ghost predicate SafeDelete(w: World, step: Step) {
    Deleting(w, step) ==>
      var x := w.spaces[step.run];
      x.head != x.phase.tip || Held(w.history, w.branches - {x.job.branch}, x.phase.tip)
  }

  // --- one command ---

  lemma SameTips(w: World)
    requires Valid(w)
    ensures w.tips + Tips(w.branches) == w.tips
  {}

  /** Every push, a Run's or a landing's, leaves each branch where it was or moves one branch forward. */
  ghost predicate Forward(w: World, v: World, b: Branch, c: Commit) {
    && v.branches == w.branches[b := c] && v.history == w.history && v.tips == w.tips + {c}
    && (b in w.branches ==> Has(w.history, w.branches[b], c))
  }

  ghost predicate NoPush(w: World, v: World) {
    v.branches == w.branches && w.history <= v.history && v.tips == w.tips
  }

  /** A build's push either does nothing or moves its own branch, never the default branch, without overwriting
      anything: what the branch had is still in its history. */
  lemma BuildPushes(w: World, run: nat)
    requires Valid(w) && run in w.spaces
    ensures
      var x := w.spaces[run];
      var v := Next(w, Pushes(run));
      NoPush(w, v)
      || (x.job.Build? && Target(x) != x.def && Forward(w, v, Target(x), x.head)
          && (Target(x) in w.branches ==> w.branches[Target(x)] == x.base))
  {
    var x := w.spaces[run];
    var s := SiteOf(w, x.worker);
    SameTips(w);
    if x.phase == Committed && x.job.Build? {
      TipsOfUpdate(w.branches, Target(x), x.head, w.tips);
    }
  }

  lemma LandPushes(w: World, run: nat)
    requires Valid(w) && run in w.spaces
    ensures
      var x := w.spaces[run];
      var v := Next(w, Lands(run));
      if v.spaces[run].phase.Landed? && x.phase.Merged? then Forward(w, v, x.start, x.head) else NoPush(w, v)
  {
    var x := w.spaces[run];
    SameTips(w);
    if x.phase.Merged? {
      TipsOfUpdate(w.branches, x.start, x.head, w.tips);
    }
  }

  lemma OthersPushes(w: World, b: Branch, c: Commit)
    requires Valid(w)
    ensures var v := Next(w, OthersPush(b, c)); NoPush(w, v) || Forward(w, v, b, c)
  {}

  lemma QuietStep(w: World, step: Step)
    requires Valid(w)
    requires step.StartRun? || step.Commits? || step.Merges? || step.OthersCommit?
    ensures NoPush(w, Next(w, step))
  {
    SameTips(w);
  }

  lemma DeleteEffect(w: World, step: Step)
    requires Valid(w) && step.Deletes?
    ensures
      var v := Next(w, step);
      if Deleting(w, step) then
        v.history == w.history && v.tips == w.tips && v.branches == w.branches - {w.spaces[step.run].job.branch}
      else NoPush(w, v)
  {
    SameTips(w);
    if Deleting(w, step) {
      var x := w.spaces[step.run];
      MirrorOf(w, x.worker);
      DeleteStep(SiteOf(w, x.worker), x, w.tips);
      var rest := w.branches - {x.job.branch};
      assert w.tips + Tips(rest) == w.tips;
    }
  }

  lemma NoPushKeeps(w: World, v: World)
    requires Valid(w) && AllKept(w) && NoPush(w, v)
    ensures AllKept(v)
  {
    TipsIn(w.branches, w.tips, |w.history|);
    assert v.history == w.history + v.history[|w.history|..];
    KeptStays(w.history, v.history[|w.history|..], w.branches, w.tips);
  }

  /** No branch went away and no branch went back. */
  ghost predicate Grows(w: World, v: World) {
    NoPush(w, v) || exists b, c :: Forward(w, v, b, c)
  }

  /** Only a deletion takes anything away from the remote. */
  lemma OnlyDeletesRemove(w: World, step: Step)
    requires Valid(w) && !Deleting(w, step)
    ensures Grows(w, Next(w, step))
  {
    match step {
      case Pushes(run) => if run in w.spaces { BuildPushes(w, run); }
      case Lands(run) => if run in w.spaces { LandPushes(w, run); }
      case OthersPush(b, c) => OthersPushes(w, b, c);
      case Deletes(run) => DeleteEffect(w, step);
      case StartRun(_, _, _, _) => QuietStep(w, step);
      case Commits(_, _) => QuietStep(w, step);
      case Merges(_, _) => QuietStep(w, step);
      case OthersCommit(_) => QuietStep(w, step);
    }
  }

  lemma GrowsKeeps(w: World, v: World)
    requires Valid(w) && AllKept(w) && Grows(w, v)
    ensures AllKept(v)
  {
    if NoPush(w, v) {
      NoPushKeeps(w, v);
    } else {
      var b, c :| Forward(w, v, b, c);
      KeptForward(w.history, w.branches, w.tips, b, c);
    }
  }

  /** One command loses nothing exactly when it is not an unsafe deletion. */
  lemma StepLosesExactlyWhen(w: World, step: Step)
    requires Valid(w) && AllKept(w)
    ensures AllKept(Next(w, step)) <==> SafeDelete(w, step)
  {
    if Deleting(w, step) {
      DeleteLosesExactlyWhen(w, step);
    } else {
      OnlyDeletesRemove(w, step);
      GrowsKeeps(w, Next(w, step));
    }
  }

  lemma DeleteLosesExactlyWhen(w: World, step: Step)
    requires Valid(w) && AllKept(w) && Deleting(w, step)
    ensures AllKept(Next(w, step)) <==> SafeDelete(w, step)
  {
    DeleteEffect(w, step);
    var x := w.spaces[step.run];
    assert SpaceOk(w.history, w.tips, x);
    DeletedIsKept(w.history, w.branches, w.tips, x.job.branch);
    if x.head != x.phase.tip {
      NewerTipHolds(w.history, w.branches, w.tips, x.job.branch, x.head);
    }
  }

  // --- whole runs ---

  lemma AfterOneMore(w: World, script: seq<Step>, n: nat)
    requires n < |script|
    ensures After(w, script[..n + 1]) == Next(After(w, script[..n]), script[n])
  {
    assert script[..n + 1][..n] == script[..n];
    assert script[..n + 1][n] == script[n];
  }

  lemma {:induction false} SafeRunKeeps(w: World, script: seq<Step>, n: nat)
    requires Initial(w) && n <= |script|
    requires forall k :: 0 <= k < n ==> SafeDelete(After(w, script[..k]), script[k])
    ensures AllKept(After(w, script[..n]))
  {
    if n == 0 {
      forall c | c in w.tips ensures Held(w.history, w.branches, c) {
        var b :| b in w.branches && w.branches[b] == c;
      }
    } else {
      SafeRunKeeps(w, script, n - 1);
      AlwaysValid(w, script[..n - 1]);
      AfterOneMore(w, script, n - 1);
      StepLosesExactlyWhen(After(w, script[..n - 1]), script[n - 1]);
    }
  }

  /** Main result: over a whole run, every commit that was ever a branch's tip stays reachable from some branch at
      every moment, exactly when every deletion was safe. */
  lemma NothingIsLostExactlyWhen(w: World, script: seq<Step>)
    requires Initial(w)
    ensures (forall n :: 0 <= n <= |script| ==> AllKept(After(w, script[..n])))
       <==> (forall n :: 0 <= n < |script| ==> SafeDelete(After(w, script[..n]), script[n]))
  {
    if forall n :: 0 <= n < |script| ==> SafeDelete(After(w, script[..n]), script[n]) {
      forall n | 0 <= n <= |script| ensures AllKept(After(w, script[..n])) {
        SafeRunKeeps(w, script, n);
      }
    }
    if forall n :: 0 <= n <= |script| ==> AllKept(After(w, script[..n])) {
      forall n | 0 <= n < |script| ensures SafeDelete(After(w, script[..n]), script[n]) {
        AlwaysValid(w, script[..n]);
        AfterOneMore(w, script, n);
        assert AllKept(After(w, script[..n + 1]));
        StepLosesExactlyWhen(After(w, script[..n]), script[n]);
      }
    }
  }

  // --- workers that agree on the default branch ---

  /** Every Run of the script is started with the same default branch. */
  predicate Agreed(script: seq<Step>, def: Branch) {
    forall i :: 0 <= i < |script| && script[i].StartRun? ==> script[i].def == def
  }

  /** Everything a merge landed is still in the default branch, which nobody deleted. */
  ghost predicate DefaultHolds(w: World, def: Branch) {
    && (forall run :: run in w.spaces ==> w.spaces[run].def == def)
    && (forall run :: run in w.spaces && w.spaces[run].phase.Landed? ==> InDefault(w, def, w.spaces[run].head))
  }

  ghost predicate InDefault(w: World, def: Branch, c: Commit) {
    def in w.branches && c < |w.history| && Has(w.history, c, w.branches[def])
  }

  lemma InDefaultStays(w: World, v: World, def: Branch, c: Commit)
    requires Valid(w) && InDefault(w, def, c) && Grows(w, v)
    ensures InDefault(v, def, c)
  {
    TipsIn(w.branches, w.tips, |w.history|);
    if NoPush(w, v) {
      assert v.history == w.history + v.history[|w.history|..];
      HasStays(w.history, v.history[|w.history|..], c, w.branches[def]);
    } else {
      var b, to :| Forward(w, v, b, to);
      if b == def {
        HasThrough(w.history, c, w.branches[def], to);
      }
    }
  }

  /** Only a landing makes a Run Landed; every other Run keeps its phase and default branch. */
  lemma WhoLanded(w: World, step: Step, run: nat)
    requires run in Next(w, step).spaces
    ensures var v := Next(w, step);
      if run in w.spaces then
        && v.spaces[run].def == w.spaces[run].def
        && (v.spaces[run].phase.Landed? ==>
              v.spaces[run].head == w.spaces[run].head
              && (w.spaces[run].phase.Landed? || (step == Lands(run) && w.spaces[run].phase.Merged?)))
      else step.StartRun? && v.spaces[run].def == step.def && !v.spaces[run].phase.Landed?
  {}

  lemma DeletesNotDefault(w: World, step: Step, def: Branch)
    requires Valid(w) && DefaultHolds(w, def) && Deleting(w, step)
    ensures w.spaces[step.run].job.branch != def
    ensures SafeDelete(w, step)
  {
    var x := w.spaces[step.run];
    assert SpaceOk(w.history, w.tips, x);
    var rest := w.branches - {x.job.branch};
    assert InDefault(w, def, x.head);
    HasThrough(w.history, x.phase.tip, x.head, w.branches[def]);
    assert def in rest && rest[def] == w.branches[def];
  }

  lemma DefaultStays(w: World, step: Step, def: Branch)
    requires Valid(w) && DefaultHolds(w, def)
    requires step.StartRun? ==> step.def == def
    ensures SafeDelete(w, step) && DefaultHolds(Next(w, step), def)
  {
    var v := Next(w, step);
    if Deleting(w, step) {
      DeletesNotDefault(w, step, def);
    }
    forall run | run in v.spaces
      ensures v.spaces[run].def == def
      ensures v.spaces[run].phase.Landed? ==> InDefault(v, def, v.spaces[run].head)
    {
      WhoLanded(w, step, run);
      if v.spaces[run].phase.Landed? {
        LandedStays(w, step, def, run);
      }
    }
  }

  lemma LandedStays(w: World, step: Step, def: Branch, run: nat)
    requires Valid(w) && DefaultHolds(w, def)
    requires run in Next(w, step).spaces && Next(w, step).spaces[run].phase.Landed?
    ensures InDefault(Next(w, step), def, Next(w, step).spaces[run].head)
  {
    var v := Next(w, step);
    WhoLanded(w, step, run);
    var x := w.spaces[run];
    assert SpaceOk(w.history, w.tips, x);
    if !x.phase.Landed? {
      LandPushes(w, run);
    } else if Deleting(w, step) {
      DeleteEffect(w, step);
      DeletesNotDefault(w, step, def);
    } else {
      OnlyDeletesRemove(w, step);
      InDefaultStays(w, v, def, x.head);
    }
  }

  lemma {:induction false} DefaultAlwaysHolds(w: World, script: seq<Step>, def: Branch, n: nat)
    requires Initial(w) && Agreed(script, def) && n <= |script|
    ensures DefaultHolds(After(w, script[..n]), def)
    ensures n < |script| ==> SafeDelete(After(w, script[..n]), script[n])
  {
    if n > 0 {
      DefaultAlwaysHolds(w, script, def, n - 1);
      AlwaysValid(w, script[..n - 1]);
      AfterOneMore(w, script, n - 1);
      DefaultStays(After(w, script[..n - 1]), script[n - 1], def);
    }
    if n < |script| {
      AlwaysValid(w, script[..n]);
      DefaultStays(After(w, script[..n]), script[n], def);
    }
  }

  /** With one agreed default branch nothing published is ever lost, and whatever was landed stays in the default
      branch's history. */
  lemma NothingIsLost(w: World, script: seq<Step>, def: Branch)
    requires Initial(w) && Agreed(script, def)
    ensures AllKept(After(w, script))
    ensures DefaultHolds(After(w, script), def)
  {
    assert script[..|script|] == script;
    forall n | 0 <= n < |script| ensures SafeDelete(After(w, script[..n]), script[n]) {
      DefaultAlwaysHolds(w, script, def, n);
    }
    NothingIsLostExactlyWhen(w, script);
    DefaultAlwaysHolds(w, script, def, |script|);
  }

  // --- what lands ---

  /** A merge that reached the default branch holds the base it started from, the branch's tip and at most one
      commit of its own; the tip is the very commit that was approved, when one was. */
  lemma LandsWhatWasApproved(w: World, script: seq<Step>, run: nat, x: Commit)
    requires Initial(w)
    requires var v := After(w, script); run in v.spaces && v.spaces[run].phase.Merged?
    ensures
      var v := After(w, script);
      var m := v.spaces[run];
      var after := Next(v, Lands(run));
      after.spaces[run].phase.Landed? ==>
        && m.job.Merge? && (m.job.approved.Some? ==> m.phase.tip == m.job.approved.value)
        && m.start in after.branches
        && (Has(after.history, x, after.branches[m.start]) <==>
              x == m.head || Has(v.history, x, m.base) || Has(v.history, x, m.phase.tip))
  {
    AlwaysValid(w, script);
    var v := After(w, script);
    var m := v.spaces[run];
    assert SpaceOk(v.history, v.tips, m);
    LandPushes(v, run);
    if Has(v.history, x, m.head) && x != m.head {
      var p :| p in v.history[m.head] && p < m.head && Has(v.history, x, p);
    }
    if Has(v.history, x, m.base) {
      HasThrough(v.history, x, m.base, m.head);
    }
    if Has(v.history, x, m.phase.tip) {
      HasThrough(v.history, x, m.phase.tip, m.head);
    }
  }
}
