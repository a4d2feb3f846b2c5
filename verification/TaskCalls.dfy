/** What a caller may rely on after each operation: who can do what next, and when exactly a merge is queued. */
module TaskCalls {
  import opened Lists
  import opened Models
  import opened TaskMachine
  import opened TaskShape
  import opened TaskLaws
  import opened TaskMerge
  import opened TaskVouch

  /** A row is found by its id. */
  lemma Found(runs: seq<Run>, r: Run)
    requires RunsOk(runs) && r in runs
    ensures RunAt(runs, r.id) < |runs| && runs[RunAt(runs, r.id)] == r
  {
    OneRowPerId(runs, r, runs[RunAt(runs, r.id)]);
  }

  // --- queueing a Run ---

  lemma SameRowAfterInsert(runs: seq<Run>, q: Run, id: Id)
    requires RunsOk(runs) && RunOk(q) && id != q.id && forall r :: r in runs ==> r.id != q.id
    ensures var ys := Insert(runs, q, RunBefore);
      && (RunAt(ys, id) < |ys| <==> RunAt(runs, id) < |runs|)
      && (RunAt(runs, id) < |runs| ==> ys[RunAt(ys, id)] == runs[RunAt(runs, id)])
  {
    var ys := Insert(runs, q, RunBefore);
    QueuedStaysOk(runs, q);
    if RunAt(runs, id) < |runs| {
      assert runs[RunAt(runs, id)] in ys;
      Found(ys, runs[RunAt(runs, id)]);
    }
  }

  /** A Run that was queued can be claimed by its Bot's agents and nobody else's, or by anybody's when it has no Bot;
      what can be claimed otherwise is what could be before. */
  lemma QueuedRunWaits(s: State, bot: Option<Member>, kind: Option<RunKind>, origin: Origin, tx: Tx,
                       agent: string, b: Id, id: Id, until: Time, later: Tx)
    requires RunsOk(s.runs) && Fresh(s, tx) && agent != ""
    ensures var t := CreateRun(s, bot, kind, origin, tx);
      Claim(t, agent, b, id, until, later).Committed? <==>
        if id == tx.newRun then !s.project.archived && (bot.None? || bot.value.id == b)
        else Claim(s, agent, b, id, until, later).Committed?
  {
    var t := CreateRun(s, bot, kind, origin, tx);
    var k := if kind.Some? then kind.value else if bot.Some? then KindForRole(bot.value.role) else Build;
    var q := NewRun(k, if bot.Some? then Some(bot.value.id) else None, "", origin, tx);
    QueuedStaysOk(s.runs, q);
    if id == tx.newRun {
      Found(t.runs, q);
    } else {
      SameRowAfterInsert(s.runs, q, id);
    }
  }

  /** A requested Run is never a merge, waits for the Bot asked for, else for the Task's assignee if that is a Bot, and
      every Run there was stays. */
  lemma RequestedRunWaits(s: State, bot: Option<Id>, kind: Option<RunKind>, tx: Tx) returns (q: Run)
    requires RequestRun(s, bot, kind, tx).Committed?
    ensures var t := RequestRun(s, bot, kind, tx).state;
      && q in t.runs && q.id == tx.newRun && q.status.Pending? && !q.kind.Merge?
        && (kind.Some? ==> q.kind == kind.value)
      && (q.kind.Review? && kind.Some? ==> s.task.branch != "")
      && (bot.Some? ==> q.bot == bot)
      && (bot.None? && q.bot.Some? ==> q.bot == s.task.assignee)
      && (bot.None? && q.bot.None? && s.task.assignee.Some? ==>
            var a := MemberAt(s.members, s.task.assignee.value); a < |s.members| ==> !s.members[a].isBot)
      && (q.bot.Some? ==> exists m :: m in s.members && m.id == q.bot.value && m.isBot)
      && multiset(t.runs) == multiset(s.runs) + multiset{q}
      && t == s.(runs := t.runs)
  {
    var a := if s.task.assignee.Some? then MemberAt(s.members, s.task.assignee.value) else |s.members|;
    var chosen := if bot.None? && a < |s.members| && s.members[a].isBot then s.task.assignee else bot;
    var m := if chosen.Some? then Some(s.members[MemberAt(s.members, chosen.value)]) else None;
    var k := if kind.Some? then kind.value else if m.Some? then KindForRole(m.value.role) else Build;
    q := NewRun(k, if m.Some? then Some(m.value.id) else None, "", ByPeople, tx);
    if m.Some? {
      assert m.value in s.members;
    }
    InsertMultiset(s.runs, q);
  }

  lemma InsertMultiset(runs: seq<Run>, q: Run)
    ensures multiset(Insert(runs, q, RunBefore)) == multiset(runs) + multiset{q}
  {
    var k := Place(runs, q, RunBefore);
    assert runs == runs[..k] + runs[k..];
  }

  // --- claiming and keeping alive ---

  /** After a claim the Run is one agent's: nobody claims it again, another agent can neither renew, report nor ask,
      and its own agent can do all three. */
  lemma ClaimedByOne(s: State, agent: string, bot: Id, id: Id, until: Time, tx: Tx,
                     other: string, b: Id, till: Time, rep: RunReport, later: Tx)
    requires Claim(s, agent, bot, id, until, tx).Committed?
    ensures var t := Claim(s, agent, bot, id, until, tx).state;
      && Claim(t, other, b, id, till, later).RolledBack?
      && (other != agent && other != "" ==>
            && Heartbeat(t, other, id, till) == RolledBack(Conflict)
            && AskPermission(t, other, id, later) == RolledBack(Conflict)
            && Report(t, other, id, rep, later).RolledBack?)
      && Heartbeat(t, agent, id, till).Committed? && AskPermission(t, agent, id, later).Committed?
      && (Report(t, agent, id, rep, later).Committed? <==> !rep.status.Pending?)
  {
    var i := RunAt(s.runs, id);
    RowKeepsPlace(s.runs, i, Claimed(s.runs[i], agent, tx.now, until));
  }

  lemma {:induction false} RowKeepsPlace(runs: seq<Run>, i: nat, r: Run)
    requires i < |runs| && i == RunAt(runs, runs[i].id) && r.id == runs[i].id
    ensures RunAt(runs[i := r], r.id) == i
  {
    if i > 0 {
      assert runs[i := r][1..] == runs[1..][i - 1 := r];
      RowKeepsPlace(runs[1..], i - 1, r);
    }
  }

  /** A claim is good for the lease it was given: the Run survives every reaping until then, and the first one after
      that which picks it fails it. */
  lemma ClaimIsLeased(s: State, agent: string, bot: Id, id: Id, until: Time, tx: Tx, picked: set<Id>, later: Tx)
    requires Claim(s, agent, bot, id, until, tx).Committed?
    ensures var i := RunAt(s.runs, id);
      var t := Claim(s, agent, bot, id, until, tx).state;
      var after := Reap(t, picked, later).runs;
      && |t.runs| == |s.runs| == |after| && t.runs[i].status == Running && t.runs[i].worker == agent
      && (forall j :: 0 <= j < |s.runs| && j != i ==> t.runs[j] == s.runs[j])
      && (after[i] != t.runs[i] <==> id in picked && later.now > until)
      && (after[i] != t.runs[i] ==> after[i].status == Failed && after[i].worker == agent)
  {}

  /** A running Run that was renewed survives every reaping until its new lease ends; the first one after that which
      picks it fails it. Renewing a finished Run changes nothing, so its agent sees how it ended. */
  lemma HeartbeatKeepsAlive(s: State, agent: string, id: Id, until: Time, picked: set<Id>, later: Tx)
    requires Heartbeat(s, agent, id, until).Committed?
    ensures var t := Heartbeat(s, agent, id, until).state;
      var i := RunAt(s.runs, id);
      var after := Reap(t, picked, later).runs;
      && |t.runs| == |s.runs| && |after| == |s.runs| && s.runs[i].worker == agent
      && (forall j :: 0 <= j < |s.runs| && j != i ==> t.runs[j] == s.runs[j])
      && (if s.runs[i].status.Running? then
            (after[i].status.Failed? <==> s.runs[i].id in picked && later.now > until)
            && (later.now <= until ==> after[i] == t.runs[i])
          else t == s && after[i] == s.runs[i])
  {}

  // --- questions ---

  lemma {:induction false} AppendedAt(ds: seq<Decision>, d: Decision)
    requires forall x :: x in ds ==> x.id != d.id
    ensures DecisionAt(ds + [d], d.id) == |ds|
  {
    if ds != [] {
      assert (ds + [d])[1..] == ds[1..] + [d];
      AppendedAt(ds[1..], d);
    }
  }

  /** A permission question is answered once, with any answer, and the answer moves neither the Task nor its Runs. */
  lemma PermissionIsAnsweredOnce(s: State, agent: string, id: Id, answer: string, again: string, tx: Tx, tx2: Tx,
      tx3: Tx)
    requires Fresh(s, tx) && AskPermission(s, agent, id, tx).Committed? && !s.project.archived && answer != ""
      && again != ""
    ensures
      var t := AskPermission(s, agent, id, tx).state;
      var u := Answer(t, tx.newDecision, answer, tx2);
      && u.Committed? && u.state.runs == s.runs && u.state.task == s.task
      && u.state.decisions == s.decisions + [Decision(tx.newDecision, Permission, "", Some(id), answer)]
      && Answer(u.state, tx.newDecision, again, tx3) == RolledBack(Conflict)
  {
    var d := Decision(tx.newDecision, Permission, "", Some(id), "");
    AppendedAt(s.decisions, d);
    AppendedAt(s.decisions, d.(answer := answer));
    assert (s.decisions + [d])[|s.decisions| := d.(answer := answer)] == s.decisions + [d.(answer := answer)];
  }

  /** It ends with its Run at the latest: when the agent reports the Run finished, the question is answered. */
  lemma PermissionEndsWithItsRun(s: State, agent: string, id: Id, rep: RunReport, tx: Tx, later: Tx)
    requires AskPermission(s, agent, id, tx).Committed? && rep.status.Terminal()
    ensures
      var t := AskPermission(s, agent, id, tx).state;
      var u := Report(t, agent, id, rep, later);
      && u.Committed? && |s.decisions| < |u.state.decisions|
      && u.state.decisions[|s.decisions|] == Decision(tx.newDecision, Permission, "", Some(id), NOT_NEEDED)
  {
    var t := AskPermission(s, agent, id, tx).state;
    var i := RunAt(t.runs, id);
    var r := Reported(t.runs[i], rep, later.now);
    var v := t.(runs := t.runs[i := r], decisions := CloseQuestions(t.decisions, {id}),
                task := TaskAfter(t.project, t.task, r, later.now));
    assert Report(t, agent, id, rep, later).state == Do(v, AfterRun(v, r), later);
    DoKeepsDecisions(v, AfterRun(v, r), later);
  }

  lemma DoKeepsDecisions(t: State, m: Move, tx: Tx)
    ensures t.decisions <= Do(t, m, tx).decisions
  {}

  // --- leaving ---

  /** The question is about a Run that changed. */
  ghost predicate AboutChanged(was: seq<Run>, now: seq<Run>, d: Decision)
    requires |now| == |was|
  {
    exists j :: 0 <= j < |was| && was[j] != now[j] && d.run == Some(was[j].id)
  }

  /** A Member that was removed is marked gone. When it is a Bot, exactly its queued and running Runs stop, each with
      its open questions answered; a person's leaving stops nothing. Removing again changes nothing. */
  lemma RemovedMemberStops(s: State, id: Id, tx: Tx)
    requires RemoveMember(s, id, tx).Committed?
    ensures var t := RemoveMember(s, id, tx).state;
      var m := MemberAt(s.members, id);
      && m < |s.members| && t.members == s.members[m := s.members[m].(left := true)]
      && t.task == s.task && |t.runs| == |s.runs| && |t.decisions| == |s.decisions|
      && (s.members[m].left || !s.members[m].isBot ==> t.runs == s.runs && t.decisions == s.decisions)
      && (!s.members[m].left && s.members[m].isBot ==>
            && (forall j :: 0 <= j < |s.runs| ==>
                  t.runs[j] == if s.runs[j].bot == Some(id) && s.runs[j].status in {Pending, Running}
                               then s.runs[j].(status := Canceled, lease := None, finishedAt := Some(tx.now))
                               else s.runs[j])
            && (forall k :: 0 <= k < |s.decisions| ==>
                  t.decisions[k] == if s.decisions[k].answer == "" && AboutChanged(s.runs, t.runs, s.decisions[k])
                                    then s.decisions[k].(answer := NOT_NEEDED) else s.decisions[k]))
  {
    var m := MemberAt(s.members, id);
    if s.members[m].left {
      assert s.members[m := s.members[m].(left := true)] == s.members;
    } else if s.members[m].isBot {
      StoppedQuestions(s, id, tx);
    }
  }

  lemma StoppedQuestions(s: State, id: Id, tx: Tx)
    ensures
      var ended := set r | r in s.runs && WorksFor(r, id) :: r.id;
      var runs := Map(s.runs, (r: Run) => Stopped(r, id, tx.now));
      forall k :: 0 <= k < |s.decisions| && s.decisions[k].run.Some? ==>
        (s.decisions[k].run.value in ended <==> AboutChanged(s.runs, runs, s.decisions[k]))
  {
    var ended := set r | r in s.runs && WorksFor(r, id) :: r.id;
    var runs := Map(s.runs, (r: Run) => Stopped(r, id, tx.now));
    forall k | 0 <= k < |s.decisions| && s.decisions[k].run.Some? && s.decisions[k].run.value in ended
      ensures AboutChanged(s.runs, runs, s.decisions[k])
    {
      var r :| r in s.runs && WorksFor(r, id) && r.id == s.decisions[k].run.value;
      var j :| 0 <= j < |s.runs| && s.runs[j] == r;
      assert runs[j].status == Canceled;
    }
  }

  // --- when exactly a merge is queued ---

  predicate Settled(t: Task) { t.status.Done? || t.status.Dropped? }

  ghost predicate QueuesAMerge(t: State, u: State) {
    exists q :: q in u.runs && q.kind.Merge? && q !in t.runs
  }

  lemma DoQueuesMerge(t: State, m: Move, tx: Tx)
    requires (forall r :: r in t.runs ==> r.id != tx.newRun) && (m.StartBot? ==> !KindForRole(m.to.role).Merge?)
    ensures QueuesAMerge(t, Do(t, m, tx)) <==> m.Land?
  {
    if m.Land? {
      var q := NewRun(Merge, None, t.task.head, ByAutopilot, tx);
      assert q in Do(t, m, tx).runs && q !in t.runs;
    }
  }

  lemma TryMergeLands(t: State)
    ensures TryMerge(t).Land? <==> MayLand(t) && CleanToLand(t)
  {}

  /** A CI result makes the autopilot queue a merge exactly when it is a success, people left the autopilot on and the
      Task open, nothing is or was merged, the newest review approves the latest work, all CI on it passed, and the
      policy asks nobody. */
  lemma CheckLandsExactlyWhen(t: State, c: Check, tx: Tx)
    requires forall r :: r in t.runs ==> r.id != tx.newRun
    ensures QueuesAMerge(t, Do(t, OnCheck(t, c), tx)) <==>
      c.status.CheckSuccess? && t.project.autoRun && !Settled(t.task) && MayLand(t) && CleanToLand(t)
  {
    OnCheckLandsClean(t, c);
    DoQueuesMerge(t, OnCheck(t, c), tx);
    TryMergeLands(t);
  }

  /** So does a finished Run: exactly an approving review. */
  lemma RunLandsExactlyWhen(t: State, r: Run, tx: Tx)
    requires forall x :: x in t.runs ==> x.id != tx.newRun
    ensures QueuesAMerge(t, Do(t, AfterRun(t, r), tx)) <==>
      DoneReview(r) && r.verdict.Approve? && t.project.autoRun && !Settled(t.task) && MayLand(t) && CleanToLand(t)
  {
    AfterRunLandsClean(t, r);
    DoQueuesMerge(t, AfterRun(t, r), tx);
    TryMergeLands(t);
  }

  /** An answer queues a merge exactly when it says "merge" about a merge of an open, unmerged Task with a branch and no
      merge under way, and the question named no commit or the one that is still the head. CI and reviews play no
      part. */
  lemma AnswerLandsExactlyWhen(s: State, id: Id, answer: string, tx: Tx)
    requires Answer(s, id, answer, tx).Committed? && forall r :: r in s.runs ==> r.id != tx.newRun
    ensures
      var d := s.decisions[DecisionAt(s.decisions, id)];
      QueuesAMerge(s, Answer(s, id, answer, tx).state) <==>
        && d.action.MergeIt? && EqualFold(answer, "merge") && !Settled(s.task) && MayLand(s)
        && (d.commit == "" || d.commit == s.task.head)
  {
    var i := DecisionAt(s.decisions, id);
    var d := s.decisions[i].(answer := answer);
    var t := s.(decisions := s.decisions[i := d]);
    DoQueuesMerge(t, OnDecision(t, d), tx);
  }

  /** "merge" is heard in any case of its letters, and nothing else is. */
  lemma MergeInAnyCase(answer: string)
    ensures EqualFold(answer, "merge") <==>
      |answer| == 5 && forall i :: 0 <= i < 5 ==> answer[i] == "merge"[i] || answer[i] == "MERGE"[i]
  {
    assert forall i :: 0 <= i < |answer| && i < 5 ==>
             (Lower(answer)[i] == "merge"[i] <==> answer[i] == "merge"[i] || answer[i] == "MERGE"[i]);
    assert Lower("merge") == "merge";
    if |answer| == 5 && forall i :: 0 <= i < 5 ==> answer[i] == "merge"[i] || answer[i] == "MERGE"[i] {
      assert Lower(answer) == "merge";
    }
  }

  /** While a merge is waiting or under way, no transaction at all queues another. */
  lemma MergeUnderWayBlocks(s: State, op: Op, tx: Tx, busy: Run)
    requires RunsOk(s.runs) && busy in s.runs && ActiveMerge(busy)
    ensures forall q :: q in Step(s, op, tx).runs && q.kind.Merge? ==> HasRun(s, q.id)
  {
    if Fresh(s, tx) && Perform(s, op, tx).Committed? {
      if op.OpAnswer? {
        AnswerLandsExactlyWhen(s, op.decision, op.answer, tx);
        NoNewMerge(s, Perform(s, op, tx).state);
      } else if op.OpReport? {
        BusyReport(s, op, tx, busy);
      } else if op.OpRecordCheck? {
        var c := Check(tx.newCheck, op.name, op.checkStatus, op.commit, tx.now, tx.now);
        BusyCheck(s, s.(checks := Insert(s.checks, c, CheckBefore)), c, tx, busy);
      } else if op.OpUpdateCheck? {
        var i := CheckAt(s.checks, op.check);
        var c := s.checks[i].(status := op.checkStatus, updatedAt := tx.now);
        BusyCheck(s, s.(checks := s.checks[i := c]), c, tx, busy);
      } else if op.OpRequestRun? || op.OpHandTask? {
        QueuesNoMerge(s, op, tx);
      } else {
        QueuesNothing(s, op, tx);
      }
    }
  }

  lemma NoNewMerge(s: State, u: State)
    requires !QueuesAMerge(s, u)
    ensures forall q :: q in u.runs && q.kind.Merge? ==> HasRun(s, q.id)
  {}

  lemma BusyCheck(s: State, t: State, c: Check, tx: Tx, busy: Run)
    requires t.runs == s.runs && busy in s.runs && ActiveMerge(busy) && forall r :: r in s.runs ==> r.id != tx.newRun
    ensures forall q :: q in Do(t, OnCheck(t, c), tx).runs && q.kind.Merge? ==> HasRun(s, q.id)
  {
    CheckLandsExactlyWhen(t, c, tx);
    NoNewMerge(t, Do(t, OnCheck(t, c), tx));
  }

  lemma BusyReport(s: State, op: Op, tx: Tx, busy: Run)
    requires RunsOk(s.runs) && busy in s.runs && ActiveMerge(busy) && Fresh(s, tx)
    requires op.OpReport? && Report(s, op.agent, op.run, op.rep, tx).Committed?
    ensures forall q :: q in Report(s, op.agent, op.run, op.rep, tx).state.runs && q.kind.Merge? ==> HasRun(s, q.id)
  {
    var i := RunAt(s.runs, op.run);
    var r := Reported(s.runs[i], op.rep, tx.now);
    ReportKeepsIds(s, i, r);
    if op.rep.status.Terminal() {
      var t := s.(runs := s.runs[i := r], decisions := CloseQuestions(s.decisions, {op.run}),
                  task := TaskAfter(s.project, s.task, r, tx.now));
      assert Report(s, op.agent, op.run, op.rep, tx).state == Do(t, AfterRun(t, r), tx);
      var k :| 0 <= k < |s.runs| && s.runs[k] == busy;
      assert k != i ==> t.runs[k] == busy && busy in t.runs;
      RunLandsExactlyWhen(t, r, tx);
      NoNewMerge(t, Do(t, AfterRun(t, r), tx));
    }
  }

  // --- what a check decides ---

  /** A relevant check updated after every other of its name decides: a failure fails CI, and while it is pending CI has
      not passed. */
  lemma NewestCheckDecides(cs: seq<Check>, i: nat, head: string, build: Option<Run>)
    requires i < |cs| && Relevant(cs[i], head, build)
    requires forall j :: 0 <= j < |cs| && j != i && cs[j].name == cs[i].name ==> cs[j].updatedAt < cs[i].updatedAt
    ensures Latest(cs, i, head, build)
    ensures cs[i].status.CheckFailure? ==> CiState(cs, head, build) == CheckFailure
    ensures cs[i].status.CheckPending? ==> CiState(cs, head, build) != CheckSuccess
  {
    assert Latest(cs, i, head, build);
  }

  lemma DoKeepsHead(t: State, m: Move, tx: Tx)
    ensures Do(t, m, tx).task.head == t.task.head && Do(t, m, tx).checks == t.checks
  {}

  /** Recording a result that is not a success about the head's commit stops the autopilot from merging: CI is not
      passed afterwards, and nothing was queued. */
  lemma FailingCheckBlocks(s: State, name: string, status: CheckStatus, commit: string, tx: Tx, build: Option<Run>)
    requires !status.CheckSuccess? && commit != "" && s.task.head != "" && EqualFold(commit, s.task.head)
    requires forall c :: c in s.checks && c.name == name ==> c.updatedAt < tx.now
    requires forall r :: r in s.runs ==> r.id != tx.newRun
    ensures var u := RecordCheck(s, name, status, commit, tx);
      && CiState(u.checks, u.task.head, build) != CheckSuccess
      && (status.CheckFailure? ==> CiState(u.checks, u.task.head, build) == CheckFailure)
      && !QueuesAMerge(s, u)
  {
    var c := Check(tx.newCheck, name, status, commit, tx.now, tx.now);
    var cs := Insert(s.checks, c, CheckBefore);
    var t := s.(checks := cs);
    var i := Place(s.checks, c, CheckBefore);
    forall j | 0 <= j < |cs| && j != i && cs[j].name == name
      ensures cs[j].updatedAt < tx.now
    {
      assert cs[j] == s.checks[if j < i then j else j - 1];
    }
    NewestCheckDecides(cs, i, s.task.head, build);
    CheckLandsExactlyWhen(t, c, tx);
    DoKeepsHead(t, OnCheck(t, c), tx);
  }

  /** The same when a check changes to such a status. */
  lemma WorseningCheckBlocks(s: State, id: Id, status: CheckStatus, tx: Tx, build: Option<Run>)
    requires !status.CheckSuccess? && UpdateCheck(s, id, status, tx).Committed?
    requires var c := s.checks[CheckAt(s.checks, id)];
      && c.commit != "" && s.task.head != "" && EqualFold(c.commit, s.task.head)
      && forall x :: x in s.checks && x.name == c.name ==> x.updatedAt < tx.now
    requires forall r :: r in s.runs ==> r.id != tx.newRun
    ensures var u := UpdateCheck(s, id, status, tx).state;
      && CiState(u.checks, u.task.head, build) != CheckSuccess
      && (status.CheckFailure? ==> CiState(u.checks, u.task.head, build) == CheckFailure)
      && !QueuesAMerge(s, u)
  {
    var i := CheckAt(s.checks, id);
    var c := s.checks[i].(status := status, updatedAt := tx.now);
    var t := s.(checks := s.checks[i := c]);
    NewestCheckDecides(t.checks, i, s.task.head, build);
    CheckLandsExactlyWhen(t, c, tx);
    DoKeepsHead(t, OnCheck(t, c), tx);
  }

  // --- for good: from an operation to any later moment ---

  lemma LaterState(s: State, script: seq<Input>, m: nat, n: nat)
    requires NewTask(s) && m <= n <= |script|
    ensures Inv(After(s, script[..m])) && Inv(After(s, script[..n]))
      && Kept(After(s, script[..m]), After(s, script[..n]))
  {
    assert script[..m] + script[m..n] == script[..n];
    RowsForLife(s, script[..m], script[m..n]);
    AlwaysInv(s, script[..m]);
    AlwaysInv(s, script[..n]);
  }

  /** A Run some agent has had is that agent's at any later moment: nobody claims it, and no other agent renews it, asks
      about it or reports on it. */
  lemma ClaimedForGood(s: State, script: seq<Input>, m: nat, n: nat, r: Run,
                       other: string, b: Id, till: Time, rep: RunReport, tx: Tx)
    requires NewTask(s) && m <= n <= |script| && r in After(s, script[..m]).runs && r.worker != ""
    requires other != "" && other != r.worker
    ensures var t := After(s, script[..n]);
      && (forall agent, bot, until :: Claim(t, agent, bot, r.id, until, tx).RolledBack?)
      && Heartbeat(t, other, r.id, till) == RolledBack(Conflict)
      && AskPermission(t, other, r.id, tx) == RolledBack(Conflict)
      && Report(t, other, r.id, rep, tx).RolledBack?
  {
    LaterState(s, script, m, n);
    var t := After(s, script[..n]);
    var x :| x in t.runs && Descends(r, x);
    Found(t.runs, x);
    assert RunOk(x);
  }

  /** The question at place i, once answered, keeps its place and its answer. */
  predicate AnsweredAt(ds: seq<Decision>, i: nat, d: Decision) {
    i < |ds| && ds[i] == d && d.answer != "" && DecisionAt(ds, d.id) == i
  }

  lemma {:induction false} PlaceKept(a: seq<Decision>, b: seq<Decision>, id: Id)
    requires |a| <= |b| && DecisionAt(a, id) < |a|
    requires forall i :: 0 <= i < |a| ==> b[i].id == a[i].id
    ensures DecisionAt(b, id) == DecisionAt(a, id)
  {
    if a[0].id != id {
      PlaceKept(a[1..], b[1..], id);
    }
  }

  lemma StepKeepsAnswer(s: State, op: Op, tx: Tx, i: nat, d: Decision)
    requires RunsOk(s.runs) && AnsweredAt(s.decisions, i, d)
    ensures AnsweredAt(Step(s, op, tx).decisions, i, d)
  {
    var e := StepShaped(s, op, tx);
    var ds := Step(s, op, tx).decisions;
    assert forall k :: 0 <= k < |s.decisions| ==>
        Settles(s.decisions[k], e.mid.decisions[k]) && ds[k] == e.mid.decisions[k];
    PlaceKept(s.decisions, ds, d.id);
  }

  lemma {:induction false} AnswerStays(s: State, script: seq<Input>, m: nat, n: nat, i: nat, d: Decision)
    requires NewTask(s) && m <= n <= |script| && AnsweredAt(After(s, script[..m]).decisions, i, d)
    ensures AnsweredAt(After(s, script[..n]).decisions, i, d)
  {
    if m < n {
      AnswerStays(s, script, m, n - 1, i, d);
      AfterOneMore(s, script, n - 1);
      AlwaysInv(s, script[..n - 1]);
      StepKeepsAnswer(After(s, script[..n - 1]), script[n - 1].op, script[n - 1].tx, i, d);
    }
  }

  /** An answer given by transaction m is final: at any later moment answering the question again is refused. */
  lemma AnsweredForGood(s: State, script: seq<Input>, m: nat, n: nat, again: string, later: Tx)
    requires NewTask(s) && m < n <= |script| && script[m].op.OpAnswer? && again != ""
    requires var op := script[m].op;
      && Fresh(After(s, script[..m]), script[m].tx)
      && Answer(After(s, script[..m]), op.decision, op.answer, script[m].tx).Committed?
    ensures Answer(After(s, script[..n]), script[m].op.decision, again, later) == RolledBack(Conflict)
  {
    var a := After(s, script[..m]);
    var op := script[m].op;
    var i := DecisionAt(a.decisions, op.decision);
    var d := a.decisions[i].(answer := op.answer);
    AfterOneMore(s, script, m);
    DecisionKeepsPlace(a.decisions, i, d);
    DoKeepsDecisions(a.(decisions := a.decisions[i := d]), OnDecision(a.(decisions := a.decisions[i := d]), d),
        script[m].tx);
    AnswerStays(s, script, m + 1, n, i, d);
  }

  predicate HasMerge(s: State, id: Id) {
    exists r :: r in s.runs && r.id == id && r.kind.Merge?
  }

  lemma MergedStep(a: State, op: Op, tx: Tx, q: Run)
    requires Inv(a) && a.task.mergedAt.Some? && q in Step(a, op, tx).runs && q.kind.Merge?
    ensures HasMerge(a, q.id) && Step(a, op, tx).task.mergedAt.Some?
  {
    StepKeepsRows(a, op, tx);
    if HasRun(a, q.id) {
      var r0 :| r0 in a.runs && r0.id == q.id;
      SameRow(a, op, tx, r0, q);
    } else {
      StepQueues(a, op, tx, q);
    }
  }

  lemma MergedStays(s: State, script: seq<Input>, m: nat, n: nat)
    requires NewTask(s) && m <= n <= |script| && After(s, script[..m]).task.mergedAt.Some?
    ensures After(s, script[..n]).task.mergedAt.Some?
  {
    LaterState(s, script, m, n);
  }

  lemma MergeWasThere(s: State, script: seq<Input>, n: nat, q: Run)
    requires NewTask(s) && n < |script| && After(s, script[..n]).task.mergedAt.Some?
    requires q in After(s, script[..n + 1]).runs && q.kind.Merge?
    ensures HasMerge(After(s, script[..n]), q.id)
  {
    AlwaysInv(s, script[..n]);
    AfterOneMore(s, script, n);
    MergedStep(After(s, script[..n]), script[n].op, script[n].tx, q);
  }

  lemma HasMergeBack(s: State, script: seq<Input>, m: nat, n: nat, id: Id)
    requires NewTask(s) && m <= n < |script| && After(s, script[..m]).task.mergedAt.Some?
    requires HasMerge(After(s, script[..n + 1]), id)
    ensures HasMerge(After(s, script[..n]), id)
  {
    MergedStays(s, script, m, n);
    var q :| q in After(s, script[..n + 1]).runs && q.id == id && q.kind.Merge?;
    MergeWasThere(s, script, n, q);
  }

  lemma {:induction false} HadMerge(s: State, script: seq<Input>, m: nat, n: nat, id: Id)
    requires NewTask(s) && m <= n <= |script| && After(s, script[..m]).task.mergedAt.Some?
    requires HasMerge(After(s, script[..n]), id)
    ensures HasMerge(After(s, script[..m]), id)
  {
    if m < n {
      HasMergeBack(s, script, m, n - 1, id);
      HadMerge(s, script, m, n - 1, id);
    }
  }

  /** Once a Task is merged no merge Run is ever queued again, whether people reopen it, CI passes or answers come. */
  lemma NoMergeAfterMerged(s: State, script: seq<Input>, m: nat, n: nat, q: Run)
    requires NewTask(s) && m <= n <= |script| && After(s, script[..m]).task.mergedAt.Some?
    requires q in After(s, script[..n]).runs && q.kind.Merge?
    ensures HasMerge(After(s, script[..m]), q.id)
  {
    HadMerge(s, script, m, n, q.id);
  }
}
