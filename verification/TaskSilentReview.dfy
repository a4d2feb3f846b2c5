/** Why reviews must say which commit they looked at: one that does not lands an unapproved push, nobody asked. */
module TaskSilentReview {
  import opened Lists
  import opened Models
  import opened TaskMachine
  import opened TaskShape
  import opened TaskLaws
  import opened TaskMerge
  import opened TaskVouch

  const START := State(Project(true, AutoMerge, "main", false),
      [Member(1, true, Builder, false), Member(2, true, Sentry, false)],
                       Task(Open, None, "", "", None), [], [], [])

  /** Two builds wait; the first pushes c1 and gets a review; before the Sentry answers, the second pushes c2. */
  const SCRIPT := [
    Input(OpHandTask(1, false), Tx(1, 10, 20, 30)),
    Input(OpHandTask(1, false), Tx(2, 11, 20, 30)),
    Input(OpClaim("a", 1, 10, 99), Tx(3, 12, 20, 30)),
    Input(OpReport("a", 10, RunReport(Succeeded, NoSummary, "b", "c1")), Tx(4, 12, 20, 30)),
    Input(OpClaim("a", 1, 11, 99), Tx(5, 13, 20, 30)),
    Input(OpClaim("s", 2, 12, 99), Tx(6, 13, 20, 30)),
    Input(OpReport("a", 11, RunReport(Succeeded, NoSummary, "b", "c2")), Tx(7, 13, 20, 30)),
    Input(OpReport("s", 12, RunReport(Succeeded, Summary(Approve), "", "")), Tx(8, 14, 20, 30))]

  const BUILD1 := Run(10, Build, Pending, Some(1), "", None, 0, NoSummary, "", "", NoVerdict, 1, None, None, ByPeople)
  const BUILD1_RUN := Claimed(BUILD1, "a", 3, 99)
  const BUILD1_DONE := BUILD1_RUN.(status := Succeeded, branch := "b", commit := "c1", finishedAt := Some(4),
      lease := None)
  const BUILD2 := BUILD1.(id := 11, createdAt := 2)
  const BUILD2_RUN := Claimed(BUILD2, "a", 5, 99)
  const BUILD2_DONE := BUILD2_RUN.(status := Succeeded, branch := "b", commit := "c2", finishedAt := Some(7),
      lease := None)
  const REVIEW := Run(12, Review, Pending, Some(2), "", None, 0, NoSummary, "", "", NoVerdict, 4, None, None,
      ByAutopilot)
  const REVIEW_RUN := Claimed(REVIEW, "s", 6, 99)
  const REVIEW_DONE :=
    REVIEW_RUN.(status := Succeeded, summary := Summary(Approve), verdict := Approve, finishedAt := Some(8),
        lease := None)
  const REVIEW2 := REVIEW.(id := 13, createdAt := 7)
  const MERGE := Run(14, Merge, Pending, None, "", None, 0, NoSummary, "", "c2", NoVerdict, 8, None, None, ByAutopilot)

  const S1 := START.(task := Task(InProgress, Some(1), "", "", None), runs := [BUILD1])
  const S2 := S1.(runs := [BUILD2, BUILD1])
  const S3 := S2.(runs := [BUILD2, BUILD1_RUN])
  const S4 := S3.(task := Task(InProgress, Some(2), "b", "c1", None), runs := [REVIEW, BUILD2, BUILD1_DONE])
  const S5 := S4.(runs := [REVIEW, BUILD2_RUN, BUILD1_DONE])
  const S6 := S5.(runs := [REVIEW_RUN, BUILD2_RUN, BUILD1_DONE])
  const S7 := S6.(task := Task(InProgress, Some(2), "b", "c2", None),
      runs := [REVIEW2, REVIEW_RUN, BUILD2_DONE, BUILD1_DONE])
  const S8 := S7.(runs := [MERGE, REVIEW2, REVIEW_DONE, BUILD2_DONE, BUILD1_DONE])

  predicate Goes(s: State, input: Input, s': State) { Step(s, input.op, input.tx) == s' }

  lemma Hand1() ensures Goes(START, SCRIPT[0], S1) {}

  lemma Hand2() ensures Goes(S1, SCRIPT[1], S2) {}

  lemma ClaimBuild1() ensures Goes(S2, SCRIPT[2], S3) {}

  const PUSHED1 := S3.(runs := [BUILD2, BUILD1_DONE], task := Task(InProgress, Some(1), "b", "c1", None))

  lemma ReviewFollows1()
    ensures AfterRun(PUSHED1, BUILD1_DONE) == StartBot(START.members[1], ByAutopilot)
    ensures Do(PUSHED1, StartBot(START.members[1], ByAutopilot), SCRIPT[3].tx) == S4
  {}

  lemma Push1()
    ensures Goes(S3, SCRIPT[3], S4)
  {
    ReviewFollows1();
    assert RunAt(S3.runs, 10) == 1;
    assert Reported(BUILD1_RUN, SCRIPT[3].op.rep, 4) == BUILD1_DONE;
    ReportIs(S3, SCRIPT[3].op, SCRIPT[3].tx, BUILD1_DONE, PUSHED1, StartBot(START.members[1], ByAutopilot));
  }

  lemma ClaimBuild2() ensures Goes(S4, SCRIPT[4], S5) {}

  lemma ClaimReview() ensures Goes(S5, SCRIPT[5], S6) {}

  const PUSHED2 := S6.(runs := [REVIEW_RUN, BUILD2_DONE, BUILD1_DONE],
      task := Task(InProgress, Some(2), "b", "c2", None))

  lemma ReviewFollows2()
    ensures AfterRun(PUSHED2, BUILD2_DONE) == StartBot(START.members[1], ByAutopilot)
    ensures Do(PUSHED2, StartBot(START.members[1], ByAutopilot), SCRIPT[6].tx) == S7
  {}

  lemma Push2()
    ensures Goes(S6, SCRIPT[6], S7)
  {
    ReviewFollows2();
    assert RunAt(S6.runs, 11) == 1;
    assert Reported(BUILD2_RUN, SCRIPT[6].op.rep, 7) == BUILD2_DONE;
    ReportIs(S6, SCRIPT[6].op, SCRIPT[6].tx, BUILD2_DONE, PUSHED2, StartBot(START.members[1], ByAutopilot));
  }

  const REVIEWED := S7.(runs := [REVIEW2, REVIEW_DONE, BUILD2_DONE, BUILD1_DONE])

  lemma NewestWork(s: State)
    requires s.runs == REVIEWED.runs || s.runs == S8.runs
    ensures LastReview(s) == Some(REVIEW_DONE) && LastBuild(s) == Some(BUILD2_DONE)
  {
    var k := if s.runs == S8.runs then 2 else 1;
    FirstAt(s.runs, DoneReview, k);
    FirstAt(s.runs, DoneBuild, k + 1);
  }

  /** An approving review of the latest work leads to a merge at once under the auto policy, without CI. */
  lemma CleanReviewLands(t: State, r: Run)
    requires DoneReview(r) && r.verdict.Approve? && t.project.autoRun && t.project.policy.AutoMerge?
    requires t.task.status.InProgress? && t.task.mergedAt.None? && t.task.branch != "" && t.checks == []
    requires Approved(t) && forall x :: x in t.runs ==> !ActiveMerge(x)
    ensures AfterRun(t, r) == Land
  {}

  lemma ReviewLands()
    ensures AfterRun(REVIEWED, REVIEW_DONE) == Land
  {
    NewestWork(REVIEWED);
    CleanReviewLands(REVIEWED, REVIEW_DONE);
  }

  lemma MergeIsQueued()
    ensures Do(REVIEWED, Land, SCRIPT[7].tx) == S8
  {}

  lemma ReviewReported()
    ensures RunAt(S7.runs, 12) == 1 && Reported(REVIEW_RUN, SCRIPT[7].op.rep, 8) == REVIEW_DONE
    ensures S7.(runs := S7.runs[1 := REVIEW_DONE]) == REVIEWED
    ensures TaskAfter(S7.project, S7.task, REVIEW_DONE, 8) == REVIEWED.task
  {}

  lemma ApproveAtLast()
    ensures Goes(S7, SCRIPT[7], S8)
  {
    ReviewLands();
    MergeIsQueued();
    ReviewReported();
    ReportIs(S7, SCRIPT[7].op, SCRIPT[7].tx, REVIEW_DONE, REVIEWED, Land);
  }

  lemma OneMore(k: nat, v: State, u: State)
    requires k < |SCRIPT| && After(START, SCRIPT[..k]) == v && Goes(v, SCRIPT[k], u)
    ensures After(START, SCRIPT[..k + 1]) == u
  {
    AfterOneMore(START, SCRIPT, k);
  }

  lemma FirstHalf()
    ensures After(START, SCRIPT[..4]) == S4
  {
    Hand1();
    OneMore(0, START, S1);
    Hand2();
    OneMore(1, S1, S2);
    ClaimBuild1();
    OneMore(2, S2, S3);
    Push1();
    OneMore(3, S3, S4);
  }

  lemma SecondHalf()
    ensures After(START, SCRIPT[..7]) == S7 && After(START, SCRIPT[..8]) == S8
  {
    FirstHalf();
    ClaimBuild2();
    OneMore(4, S4, S5);
    ClaimReview();
    OneMore(5, S5, S6);
    Push2();
    OneMore(6, S6, S7);
    ApproveAtLast();
    OneMore(7, S7, S8);
  }

  lemma MergeIsNew()
    ensures MERGE in S8.runs && QueuedHere(S7, S8, 14)
  {
    assert S8.runs[0] == MERGE;
    assert forall r :: r in S7.runs ==> r in [REVIEW2, REVIEW_RUN, BUILD2_DONE, BUILD1_DONE];
  }

  lemma VoucherOfReport(b: State, op: Op, v: Run)
    requires op.OpReport? && LastReview(b) == Some(v)
    ensures Voucher(b, op) == v.commit
  {}

  lemma ReviewsNameNothing(v: Run)
    requires v in S8.runs && DoneReview(v)
    ensures v == REVIEW_DONE
  {
    assert v in [MERGE, REVIEW2, REVIEW_DONE, BUILD2_DONE, BUILD1_DONE];
  }

  /** The last transaction queues a merge of c2. Nobody was asked anything, and no review names c2. */
  lemma SilentReviewLandsUnapproved()
    ensures NewTask(START) && After(START, SCRIPT) == S8
    ensures MERGE in S8.runs && MERGE.commit == "c2" && S8.decisions == []
    ensures forall v :: v in S8.runs && DoneReview(v) ==> v.commit == ""
    ensures QueuedAt(START, SCRIPT, 7, MERGE.id)
    ensures !VouchedAt(START, SCRIPT, 7, "c2") && !BothNamedAt(START, SCRIPT, 7)
  {
    SecondHalf();
    MergeIsNew();
    NewestWork(S8);
    VoucherOfReport(S8, SCRIPT[7].op, REVIEW_DONE);
    forall v | v in S8.runs && DoneReview(v) ensures v.commit == "" {
      ReviewsNameNothing(v);
    }
    assert SCRIPT[..8] == SCRIPT;
  }
}
