/** Two workers that take different branches for the default branch can delete the last branch holding a commit. */
module GitDisagree {
  import opened Lists
  import opened GitSteps
  import opened GitLaws
  import opened GitTheorems

  const START := World([[], [0]], map["main" := 0, "a" := 1, "b" := 1], map[], map[], {0, 1})

  /** Each worker merges the other's default branch into its own; both tips are the same commit, one after "main". */
  const SCRIPT := [
    StartRun(1, 1, "a", Merge("b", Some(1))), StartRun(2, 2, "b", Merge("a", Some(1))),
    Merges(1, true), Lands(1), Merges(2, true), Lands(2), Deletes(1), Deletes(2)]

  const ONLY_A := map["main" := 0, "a" := 1]

  function Checkout(worker: nat, start: Branch, branch: Branch, phase: Phase): Space {
    Space(worker, Merge(branch, Some(1)), start, 1, start, false, 1, phase)
  }

  const MIRROR := map["main" := 0, "a" := 1, "b" := 1]
  const FIRST := World(START.history, START.branches, map[1 := MIRROR], map[1 := Checkout(1, "a", "b", Ready)], {0, 1})

  function Both(branches: map<Branch, Commit>, first: Phase, second: Phase): World {
    World(START.history, branches, map[1 := MIRROR, 2 := MIRROR],
          map[1 := Checkout(1, "a", "b", first), 2 := Checkout(2, "b", "a", second)], {0, 1})
  }

  lemma OneMore(w: World, script: seq<Step>, k: nat, v: World, u: World)
    requires k < |script| && After(w, script[..k]) == v && Next(v, script[k]) == u
    ensures After(w, script[..k + 1]) == u
  {
    assert script[..k + 1][..k] == script[..k];
  }

  lemma TipsKnown(branches: map<Branch, Commit>)
    requires forall b :: b in branches ==> branches[b] in {0, 1}
    ensures {0, 1} + Tips(branches) == {0, 1}
  {}

  lemma Starts()
    ensures Next(START, SCRIPT[0]) == FIRST
    ensures Next(FIRST, SCRIPT[1]) == Both(START.branches, Ready, Ready)
  {
    TipsKnown(START.branches);
  }

  lemma FirstMerges()
    ensures Next(Both(START.branches, Ready, Ready), SCRIPT[2]) == Both(START.branches, Merged(1), Ready)
  {
    TipsKnown(START.branches);
  }

  lemma FirstLands()
    ensures Next(Both(START.branches, Merged(1), Ready), SCRIPT[3]) == Both(START.branches, Landed(1), Ready)
  {
    TipsKnown(START.branches);
    assert START.branches["a" := 1] == START.branches;
  }

  lemma SecondMerges()
    ensures Next(Both(START.branches, Landed(1), Ready), SCRIPT[4]) == Both(START.branches, Landed(1), Merged(1))
  {
    TipsKnown(START.branches);
  }

  lemma SecondLands()
    ensures Next(Both(START.branches, Landed(1), Merged(1)), SCRIPT[5]) == Both(START.branches, Landed(1), Landed(1))
  {
    TipsKnown(START.branches);
    assert START.branches["b" := 1] == START.branches;
  }

  lemma FirstDeletes()
    ensures Next(Both(START.branches, Landed(1), Landed(1)), SCRIPT[6]) == Both(ONLY_A, Over, Landed(1))
  {
    TipsKnown(ONLY_A);
    assert START.branches - {"b"} == ONLY_A;
  }

  lemma SecondDeletes()
    ensures Next(Both(ONLY_A, Over, Landed(1)), SCRIPT[7]) == Both(map["main" := 0], Over, Over)
  {
    TipsKnown(map["main" := 0]);
    assert ONLY_A - {"a"} == map["main" := 0];
  }

  lemma BothMerge()
    ensures After(START, SCRIPT[..4]) == Both(START.branches, Landed(1), Ready)
  {
    Starts();
    OneMore(START, SCRIPT, 0, START, FIRST);
    OneMore(START, SCRIPT, 1, FIRST, Both(START.branches, Ready, Ready));
    FirstMerges();
    OneMore(START, SCRIPT, 2, Both(START.branches, Ready, Ready), Both(START.branches, Merged(1), Ready));
    FirstLands();
    OneMore(START, SCRIPT, 3, Both(START.branches, Merged(1), Ready), Both(START.branches, Landed(1), Ready));
  }

  lemma BothLand()
    ensures After(START, SCRIPT[..6]) == Both(START.branches, Landed(1), Landed(1))
  {
    BothMerge();
    SecondMerges();
    OneMore(START, SCRIPT, 4, Both(START.branches, Landed(1), Ready), Both(START.branches, Landed(1), Merged(1)));
    SecondLands();
    OneMore(START, SCRIPT, 5, Both(START.branches, Landed(1), Merged(1)), Both(START.branches, Landed(1), Landed(1)));
  }

  /** Commit 1 was published and no branch holds it: "main", where the remote's HEAD may point, is older. */
  lemma DisagreementLosesWork()
    ensures Initial(START)
    ensures 1 in After(START, SCRIPT).tips && After(START, SCRIPT).branches == map["main" := 0]
    ensures !AllKept(After(START, SCRIPT))
  {
    StartIsInitial();
    BothLand();
    FirstDeletes();
    OneMore(START, SCRIPT, 6, Both(START.branches, Landed(1), Landed(1)), Both(ONLY_A, Over, Landed(1)));
    SecondDeletes();
    OneMore(START, SCRIPT, 7, Both(ONLY_A, Over, Landed(1)), Both(map["main" := 0], Over, Over));
    assert SCRIPT[..8] == SCRIPT;
    OlderLacksIt();
  }

  lemma StartIsInitial()
    ensures Initial(START)
  {
    assert START.branches["main"] == 0 && START.branches["a"] == 1;
    assert Tips(START.branches) == {0, 1};
  }

  lemma OlderLacksIt()
    ensures !Held(START.history, map["main" := 0], 1)
  {
    assert !Has(START.history, 1, 0);
  }
}
