/** Why the Server relies on what workers report: a run in which two Bots end up on one branch. */
module BranchClash {
  import opened Lists
  import opened Models
  import opened TaskMachine
  import opened TaskLaws
  import opened Branches

  const START := State(Project(true, AskFirst, "main", false),
      [Member(1, true, Builder, false), Member(2, true, Builder, false)],
                       Task(Open, None, "", "", None), [], [], [])

  const PUSHED := RunReport(Running, NoSummary, "b", "")

  /** Two Builders are asked for a build; both workers report the branch "b". */
  const SCRIPT := [
    Input(OpRequestRun(Some(1), Some(Build)), Tx(1, 10, 20, 30)),
    Input(OpRequestRun(Some(2), Some(Build)), Tx(2, 11, 20, 30)),
    Input(OpClaim("a", 1, 10, 99), Tx(3, 12, 20, 30)),
    Input(OpClaim("c", 2, 11, 99), Tx(4, 12, 20, 30)),
    Input(OpReport("a", 10, PUSHED), Tx(5, 12, 20, 30)),
    Input(OpReport("c", 11, PUSHED), Tx(6, 12, 20, 30))]

  const FIRST := Run(10, Build, Pending, Some(1), "", None, 0, NoSummary, "", "", NoVerdict, 1, None, None, ByPeople)
  const SECOND := FIRST.(id := 11, bot := Some(2), createdAt := 2)
  const FIRST_RUN := Claimed(FIRST, "a", 3, 99)
  const SECOND_RUN := Claimed(SECOND, "c", 4, 99)

  function With(second: Run, first: Run): State { START.(runs := [second, first]) }

  predicate Goes(s: State, n: nat, s': State)
    requires n < |SCRIPT|
  {
    Step(s, SCRIPT[n].op, SCRIPT[n].tx) == s'
  }

  lemma Request1() ensures Goes(START, 0, START.(runs := [FIRST])) {}

  lemma Request2() ensures Goes(START.(runs := [FIRST]), 1, With(SECOND, FIRST)) {}

  lemma Claim1() ensures Goes(With(SECOND, FIRST), 2, With(SECOND, FIRST_RUN)) {}

  lemma Claim2() ensures Goes(With(SECOND, FIRST_RUN), 3, With(SECOND_RUN, FIRST_RUN)) {}

  lemma Push1()
    ensures Goes(With(SECOND_RUN, FIRST_RUN), 4, With(SECOND_RUN, FIRST_RUN.(branch := "b")))
  {}

  lemma Push2()
    ensures Goes(With(SECOND_RUN, FIRST_RUN.(branch := "b")), 5,
      With(SECOND_RUN.(branch := "b"), FIRST_RUN.(branch := "b")))
  {}

  lemma OneMore(n: nat, s: State, s': State)
    requires n < |SCRIPT| && After(START, SCRIPT[..n]) == s && Goes(s, n, s')
    ensures After(START, SCRIPT[..n + 1]) == s'
  {
    assert SCRIPT[..n + 1][..n] == SCRIPT[..n];
  }

  lemma BothClaimed()
    ensures After(START, SCRIPT[..4]) == With(SECOND_RUN, FIRST_RUN)
  {
    Request1();
    OneMore(0, START, START.(runs := [FIRST]));
    Request2();
    OneMore(1, START.(runs := [FIRST]), With(SECOND, FIRST));
    Claim1();
    OneMore(2, With(SECOND, FIRST), With(SECOND, FIRST_RUN));
    Claim2();
    OneMore(3, With(SECOND, FIRST_RUN), With(SECOND_RUN, FIRST_RUN));
  }

  /** The second report is accepted, and two Bots' Runs carry one branch. */
  lemma ReportTakesAnothersBranch()
    ensures NewTask(START) && !Apart(After(START, SCRIPT).runs)
  {
    BothClaimed();
    Push1();
    OneMore(4, With(SECOND_RUN, FIRST_RUN), With(SECOND_RUN, FIRST_RUN.(branch := "b")));
    Push2();
    OneMore(5, With(SECOND_RUN, FIRST_RUN.(branch := "b")),
        With(SECOND_RUN.(branch := "b"), FIRST_RUN.(branch := "b")));
    assert SCRIPT[..6] == SCRIPT;
    var rows := With(SECOND_RUN.(branch := "b"), FIRST_RUN.(branch := "b")).runs;
    assert rows[0] in rows && rows[1] in rows && rows[0].bot != rows[1].bot;
  }
}
