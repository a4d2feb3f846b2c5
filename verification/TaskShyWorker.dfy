/** Why workers must report commits: a run of the machine that queues a merge nobody approved. */
module TaskShyWorker {
  import opened Lists
  import opened Models
  import opened TaskMachine
  import opened TaskShape
  import opened TaskLaws

  const START := State(Project(true, AskFirst, "main", false),
      [Member(1, true, Builder, false), Member(2, true, Sentry, false)],
                       Task(Open, None, "", "", None), [], [], [])

  /** The Builder pushes without saying which commit, the Sentry approves, people are asked, the Builder pushes
      commit "c2", and only then does somebody answer "merge". */
  const SCRIPT := [
    Input(OpHandTask(1, false), Tx(1, 10, 20, 30)),
    Input(OpClaim("a", 1, 10, 99), Tx(2, 11, 20, 30)),
    Input(OpReport("a", 10, RunReport(Succeeded, NoSummary, "b", "")), Tx(3, 11, 20, 30)),
    Input(OpClaim("s", 2, 11, 99), Tx(4, 12, 20, 30)),
    Input(OpReport("s", 11, RunReport(Succeeded, Summary(Approve), "", "")), Tx(5, 12, 20, 30)),
    Input(OpHandTask(1, false), Tx(6, 12, 21, 30)),
    Input(OpClaim("a", 1, 12, 99), Tx(7, 13, 21, 30)),
    Input(OpReport("a", 12, RunReport(Succeeded, NoSummary, "b", "c2")), Tx(8, 13, 21, 30)),
    Input(OpAnswer(20, "merge"), Tx(9, 14, 21, 30))]

  const BUILD1 := Run(10, Build, Pending, Some(1), "", None, 0, NoSummary, "", "", NoVerdict, 1, None, None, ByPeople)
  const BUILD1_RUN := Claimed(BUILD1, "a", 2, 99)
  const BUILD1_DONE := BUILD1_RUN.(status := Succeeded, branch := "b", finishedAt := Some(3), lease := None)
  const REVIEW := Run(11, Review, Pending, Some(2), "", None, 0, NoSummary, "", "", NoVerdict, 3, None, None,
      ByAutopilot)
  const REVIEW_RUN := Claimed(REVIEW, "s", 4, 99)
  const REVIEW_DONE :=
    REVIEW_RUN.(status := Succeeded, summary := Summary(Approve), verdict := Approve, finishedAt := Some(5),
        lease := None)
  const BUILD2 := BUILD1.(id := 12, createdAt := 6)
  const BUILD2_RUN := Claimed(BUILD2, "a", 7, 99)
  const BUILD2_DONE := BUILD2_RUN.(status := Succeeded, branch := "b", commit := "c2", finishedAt := Some(8),
      lease := None)
  const REVIEW2 := REVIEW.(id := 13, createdAt := 8)
  const QUESTION := Decision(20, MergeIt, "", None, "")

  const S1 := START.(task := Task(InProgress, Some(1), "", "", None), runs := [BUILD1])
  const S2 := S1.(runs := [BUILD1_RUN])
  const S3 := S2.(task := Task(InProgress, Some(2), "b", "", None), runs := [REVIEW, BUILD1_DONE])
  const S4 := S3.(runs := [REVIEW_RUN, BUILD1_DONE])
  const S5 := S4.(runs := [REVIEW_DONE, BUILD1_DONE], decisions := [QUESTION])
  const S6 := S5.(task := S5.task.(assignee := Some(1)), runs := [BUILD2, REVIEW_DONE, BUILD1_DONE])
  const S7 := S6.(runs := [BUILD2_RUN, REVIEW_DONE, BUILD1_DONE])
  const S8 := S7.(task := Task(InProgress, Some(2), "b", "c2", None),
      runs := [REVIEW2, BUILD2_DONE, REVIEW_DONE, BUILD1_DONE])

  const ANSWERED := QUESTION.(answer := "merge")
  const MERGE := Run(14, Merge, Pending, None, "", None, 0, NoSummary, "", "c2", NoVerdict, 9, None, None, ByAutopilot)
  const S9 := S8.(decisions := [ANSWERED], runs := [MERGE, REVIEW2, BUILD2_DONE, REVIEW_DONE, BUILD1_DONE])

  const STATES := [START, S1, S2, S3, S4, S5, S6, S7, S8, S9]

  predicate Goes(s: State, input: Input, s': State) { Step(s, input.op, input.tx) == s' }

  lemma Hand1() ensures Goes(START, SCRIPT[0], S1) {}

  lemma Claim1() ensures Goes(S1, SCRIPT[1], S2) {}

  const PUSHED1 := S2.(runs := [BUILD1_DONE], task := Task(InProgress, Some(1), "b", "", None))

  lemma ReviewFollows1()
    ensures AfterRun(PUSHED1, BUILD1_DONE) == StartBot(START.members[1], ByAutopilot)
    ensures Do(PUSHED1, StartBot(START.members[1], ByAutopilot), SCRIPT[2].tx) == S3
  {}

  lemma Push1()
    ensures Goes(S2, SCRIPT[2], S3)
  {
    ReviewFollows1();
    assert RunAt(S2.runs, 10) == 0 && Reported(BUILD1_RUN, SCRIPT[2].op.rep, 3) == BUILD1_DONE;
    ReportIs(S2, SCRIPT[2].op, SCRIPT[2].tx, BUILD1_DONE, PUSHED1, StartBot(START.members[1], ByAutopilot));
  }

  lemma Claim2() ensures Goes(S3, SCRIPT[3], S4) {}

  const REVIEWED := S4.(runs := [REVIEW_DONE, BUILD1_DONE])

  lemma PeopleAreAsked()
    ensures AfterRun(REVIEWED, REVIEW_DONE) == AskPeople && Do(REVIEWED, AskPeople, SCRIPT[4].tx) == S5
  {
    FirstAt(REVIEWED.runs, DoneReview, 0);
    FirstAt(REVIEWED.runs, DoneBuild, 1);
  }

  lemma Approve2()
    ensures Goes(S4, SCRIPT[4], S5)
  {
    PeopleAreAsked();
    assert RunAt(S4.runs, 11) == 0 && Reported(REVIEW_RUN, SCRIPT[4].op.rep, 5) == REVIEW_DONE;
    ReportIs(S4, SCRIPT[4].op, SCRIPT[4].tx, REVIEW_DONE, REVIEWED, AskPeople);
  }

  lemma Hand3() ensures Goes(S5, SCRIPT[5], S6) {}

  lemma Claim3() ensures Goes(S6, SCRIPT[6], S7) {}

  const PUSHED3 := S7.(runs := [BUILD2_DONE, REVIEW_DONE, BUILD1_DONE],
      task := Task(InProgress, Some(1), "b", "c2", None))

  lemma ReviewFollows3()
    ensures AfterRun(PUSHED3, BUILD2_DONE) == StartBot(START.members[1], ByAutopilot)
    ensures Do(PUSHED3, StartBot(START.members[1], ByAutopilot), SCRIPT[7].tx) == S8
  {}

  lemma Reported3()
    ensures RunAt(S7.runs, 12) == 0 && Reported(BUILD2_RUN, SCRIPT[7].op.rep, 8) == BUILD2_DONE
    ensures S7.runs[0 := BUILD2_DONE] == PUSHED3.runs && TaskAfter(S7.project, S7.task, BUILD2_DONE, 8) == PUSHED3.task
  {}

  lemma Push3()
    ensures Goes(S7, SCRIPT[7], S8)
  {
    ReviewFollows3();
    Reported3();
    ReportIs(S7, SCRIPT[7].op, SCRIPT[7].tx, BUILD2_DONE, PUSHED3, StartBot(START.members[1], ByAutopilot));
  }

  /** A merge of a commit that no review and no question was about. */
  ghost predicate UnapprovedMerge(s: State) {
    exists r :: r in s.runs && r.kind.Merge? && r.commit != ""
      && (forall v :: v in s.runs && DoneReview(v) ==> v.commit != r.commit)
      && (forall d :: d in s.decisions ==> d.commit != r.commit)
  }

  const ASKED := S8.(decisions := [ANSWERED])

  lemma AnswerLands()
    ensures OnDecision(ASKED, ANSWERED) == Land
  {}

  lemma AnswerAtLast()
    ensures Goes(S8, SCRIPT[8], S9)
  {
    assert ASKED.decisions == S8.decisions[0 := ANSWERED];
    AnswerLands();
  }

  lemma NobodyApproved(s: State, r: Run)
    requires r in s.runs && r.kind.Merge? && r.commit == "c2"
    requires forall v :: v in s.runs && DoneReview(v) ==> v.commit == ""
    requires forall d :: d in s.decisions ==> d.commit == ""
    ensures UnapprovedMerge(s)
  {}

  lemma GoesFirst(n: nat)
    requires n < 5
    ensures Goes(STATES[n], SCRIPT[n], STATES[n + 1])
  {
    if n == 0 { Hand1(); }
    else if n == 1 { Claim1(); }
    else if n == 2 { Push1(); }
    else if n == 3 { Claim2(); }
    else { Approve2(); }
  }

  lemma GoesThen(n: nat)
    requires 5 <= n < |SCRIPT|
    ensures Goes(STATES[n], SCRIPT[n], STATES[n + 1])
  {
    if n == 5 { Hand3(); }
    else if n == 6 { Claim3(); }
    else if n == 7 { Push3(); }
    else { AnswerAtLast(); }
  }

  lemma {:induction false} Chain(script: seq<Input>, states: seq<State>)
    requires |states| == |script| + 1
    requires forall n :: 0 <= n < |script| ==> Goes(states[n], script[n], states[n + 1])
    ensures After(states[0], script) == states[|script|]
  {
    if script != [] {
      Chain(script[..|script| - 1], states[..|script|]);
    }
  }

  lemma UnreportedCommitLandsUnapproved()
    ensures NewTask(START) && UnapprovedMerge(After(START, SCRIPT))
  {
    forall n | 0 <= n < |SCRIPT|
      ensures Goes(STATES[n], SCRIPT[n], STATES[n + 1])
    {
      if n < 5 { GoesFirst(n); } else { GoesThen(n); }
    }
    Chain(SCRIPT, STATES);
    NobodyApproved(S9, MERGE);
  }
}
