/** Which branch a Bot's Run carries on, read from the Task's Runs, and why Bots never write to one another's work. */
module Branches {
  import opened Lists
  import opened Models
  import opened TaskMachine
  import opened TaskLaws
  import opened TaskMerge

  datatype BotWork = BotWork(mine: string, others: seq<(Id, string)>)

  // --- reading the Runs, newest first ---

  predicate Pushed(r: Run) {
    r.branch != "" && !r.kind.Merge? && r.bot.Some?
  }

  /** Row i is the newest in which its Bot pushed something. */
  predicate Newest(rows: seq<Run>, i: nat)
    requires i < |rows|
  {
    Pushed(rows[i]) && forall j :: 0 <= j < i ==> !(Pushed(rows[j]) && rows[j].bot == rows[i].bot)
  }

  function Others(rows: seq<Run>, n: nat, me: Option<Id>): seq<(Id, string)>
    requires n <= |rows|
  {
    if n == 0 then []
    else
      Others(rows, n - 1, me)
      + if Newest(rows, n - 1) && rows[n - 1].bot != me then [(rows[n - 1].bot.value, rows[n - 1].branch)] else []
  }

  /** The Bot's own newest branch, "" when it has none. */
  function Own(rows: seq<Run>, bot: Option<Id>): string {
    if rows == [] then "" else if Pushed(rows[0]) && rows[0].bot == bot then rows[0].branch else Own(rows[1..], bot)
  }

  predicate GoodBuild(r: Run) {
    r.kind.Build? && r.status.Succeeded? && r.branch != ""
  }

  function Built(rows: seq<Run>): string {
    if rows == [] then "" else if GoodBuild(rows[0]) then rows[0].branch else Built(rows[1..])
  }

  /** A Bot carries on its own branch; a review without one works on the newest build, else the Task's branch. */
  function Mine(rows: seq<Run>, bot: Option<Id>, kind: RunKind, taskBranch: string): string {
    if !kind.Review? || Own(rows, bot) != "" then Own(rows, bot)
    else if Built(rows) != "" then Built(rows) else taskBranch
  }

  /** Each other Bot that pushed is listed with what it pushed last, and nothing else is listed. */
  lemma {:induction false} OthersAreTheNewest(rows: seq<Run>, n: nat, me: Option<Id>, b: Id, branch: string)
    requires n <= |rows|
    ensures (b, branch) in Others(rows, n, me)
      <==> Some(b) != me
           && exists i :: 0 <= i < n && Newest(rows, i) && rows[i].bot == Some(b) && rows[i].branch == branch
  {
    if n > 0 {
      var before := Others(rows, n - 1, me);
      OthersAreTheNewest(rows, n - 1, me, b, branch);
      var last := rows[n - 1];
      if Newest(rows, n - 1) && last.bot != me && last.bot == Some(b) && last.branch == branch {
        assert Others(rows, n, me)[|before|] == (b, branch);
      }
    }
  }

  /** Row i is the newest with a branch that this Bot pushed; merges push nothing of their own. */
  ghost predicate NewestOf(rows: seq<Run>, bot: Option<Id>, i: int) {
    && 0 <= i < |rows| && PushedBy(rows[i], bot)
    && forall j :: 0 <= j < i ==> !PushedBy(rows[j], bot)
  }

  predicate PushedBy(r: Run, bot: Option<Id>) {
    bot.Some? && r.bot == bot && r.branch != "" && r.kind != Merge
  }

  /** Row i is the newest build that succeeded with a branch. */
  ghost predicate NewestBuild(rows: seq<Run>, i: int) {
    && 0 <= i < |rows| && rows[i].kind == Build && rows[i].status == Succeeded && rows[i].branch != ""
    && forall j :: 0 <= j < i ==> rows[j].kind != Build || rows[j].status != Succeeded || rows[j].branch == ""
  }

  /** A Bot carries on the branch it pushed last. One that pushed nothing starts afresh, except that a review works on
      the newest build's branch, or the Task's when no build succeeded with one. */
  lemma WorksOn(rows: seq<Run>, bot: Option<Id>, kind: RunKind, taskBranch: string)
    ensures forall i :: NewestOf(rows, bot, i) ==> Mine(rows, bot, kind, taskBranch) == rows[i].branch
    ensures (forall i :: !NewestOf(rows, bot, i)) && kind != Review ==> Mine(rows, bot, kind, taskBranch) == ""
    ensures (forall i :: !NewestOf(rows, bot, i)) && kind == Review ==>
      && (forall i :: NewestBuild(rows, i) ==> Mine(rows, bot, kind, taskBranch) == rows[i].branch)
      && ((forall i :: !NewestBuild(rows, i)) ==> Mine(rows, bot, kind, taskBranch) == taskBranch)
  {
    OwnIsNewest(rows, bot);
    BuiltIsNewest(rows);
  }

  lemma {:induction false} OwnIsNewest(rows: seq<Run>, bot: Option<Id>)
    ensures forall i :: NewestOf(rows, bot, i) ==> Own(rows, bot) == rows[i].branch
    ensures Own(rows, bot) != "" ==> exists i :: NewestOf(rows, bot, i)
  {
    if rows != [] {
      OwnIsNewest(rows[1..], bot);
      if PushedBy(rows[0], bot) {
        assert NewestOf(rows, bot, 0);
      } else {
        forall i | NewestOf(rows, bot, i) ensures Own(rows, bot) == rows[i].branch {
          assert forall j :: 1 <= j <= i ==> rows[j] == rows[1..][j - 1];
          assert NewestOf(rows[1..], bot, i - 1);
        }
        if i :| NewestOf(rows[1..], bot, i) {
          assert forall j :: 1 <= j <= i + 1 ==> rows[j] == rows[1..][j - 1];
          assert NewestOf(rows, bot, i + 1);
        }
      }
    }
  }

  lemma {:induction false} BuiltIsNewest(rows: seq<Run>)
    ensures forall i :: NewestBuild(rows, i) ==> Built(rows) == rows[i].branch
    ensures Built(rows) != "" ==> exists i :: NewestBuild(rows, i)
  {
    if rows != [] {
      BuiltIsNewest(rows[1..]);
      if rows[0].kind == Build && rows[0].status == Succeeded && rows[0].branch != "" {
        assert NewestBuild(rows, 0);
      } else {
        forall i | NewestBuild(rows, i) ensures Built(rows) == rows[i].branch {
          assert forall j :: 1 <= j <= i ==> rows[j] == rows[1..][j - 1];
          assert NewestBuild(rows[1..], i - 1);
        }
        if i :| NewestBuild(rows[1..], i) {
          assert forall j :: 1 <= j <= i + 1 ==> rows[j] == rows[1..][j - 1];
          assert NewestBuild(rows, i + 1);
        }
      }
    }
  }

  method BranchesFor(rows: seq<Run>, bot: Option<Id>, kind: RunKind, taskBranch: string) returns (w: BotWork)
    ensures w.others == Others(rows, |rows|, bot)
    ensures w.mine == Mine(rows, bot, kind, taskBranch)
  {
    var mine, others: seq<(Id, string)> := "", [];
    var seen: set<Id> := {};
    for i := 0 to |rows|
      invariant forall b :: b in seen <==> exists j :: 0 <= j < i && Pushed(rows[j]) && rows[j].bot == Some(b)
      invariant others == Others(rows, i, bot)
      invariant bot.Some? && bot.value in seen <==> mine != ""
      invariant if mine == "" then Own(rows, bot) == Own(rows[i..], bot) else mine == Own(rows, bot)
    {
      var r := rows[i];
      assert rows[i..][0] == r && rows[i..][1..] == rows[i + 1..];
      if r.branch == "" || r.kind.Merge? || r.bot.None? || r.bot.value in seen {
        continue;
      }
      assert Newest(rows, i);
      seen := seen + {r.bot.value};
      if r.bot == bot {
        mine := r.branch;
        continue;
      }
      others := others + [(r.bot.value, r.branch)];
    }
    assert rows[|rows|..] == [];
    if kind.Review? && mine == "" {
      var i := 0;
      while i < |rows| && !(rows[i].kind.Build? && rows[i].status.Succeeded? && rows[i].branch != "")
        invariant 0 <= i <= |rows| && Built(rows) == Built(rows[i..])
      {
        assert rows[i..][0] == rows[i] && rows[i..][1..] == rows[i + 1..];
        i := i + 1;
      }
      if i < |rows| {
        mine := rows[i].branch;
      } else {
        assert rows[i..] == [];
        mine := taskBranch;
      }
    }
    w := BotWork(mine, others);
  }

  // --- Bots side by side ---

  /** Where a build that is claimed now pushes: the branch it starts from, or a new one named after its Run. */
  function Target(s: State, id: Id, name: Id -> string): string {
    var i := RunAt(s.runs, id);
    if i == |s.runs| then name(id)
    else
      var mine := Mine(s.runs, s.runs[i].bot, s.runs[i].kind, s.task.branch);
      if mine == "" then name(id) else mine
  }

  /** Of the reports that are accepted, only builds' name a branch, and it is the one the Run was given when claimed. */
  ghost predicate ReportsOwn(s: State, script: seq<Input>, n: nat, name: Id -> string)
    requires n < |script|
  {
    var op := script[n].op;
    op.OpReport? && op.rep.branch != "" ==>
      var a := After(s, script[..n]);
      Report(a, op.agent, op.run, op.rep, script[n].tx).Committed? ==>
        && a.runs[RunAt(a.runs, op.run)].kind.Build?
        && exists m :: 0 <= m < n && GivenAt(s, script, m, op.run, op.rep.branch, name)
  }

  /** Transaction m is a claim of the Run that existed then, and gave it this branch. */
  ghost predicate GivenAt(s: State, script: seq<Input>, m: nat, id: Id, branch: string, name: Id -> string)
    requires m < |script|
  {
    && script[m].op.OpClaim? && script[m].op.run == id
    && RunAt(After(s, script[..m]).runs, id) < |After(s, script[..m]).runs|
    && branch == Target(After(s, script[..m]), id, name)
  }

  /** Branch names carry the Run's id, so no two Runs make the same one. */
  ghost predicate Distinct(name: Id -> string) {
    forall i, j :: name(i) == name(j) ==> i == j
  }

  /** The branch was made by a Run of this Bot. */
  ghost predicate MadeBy(runs: seq<Run>, name: Id -> string, branch: string, bot: Option<Id>) {
    exists k :: k in runs && k.bot == bot && branch == name(k.id)
  }

  ghost predicate Separate(runs: seq<Run>, name: Id -> string) {
    forall r :: r in runs && r.branch != "" ==> MadeBy(runs, name, r.branch, r.bot)
  }

  lemma {:induction false} OwnIsPushed(rows: seq<Run>, bot: Option<Id>)
    requires Own(rows, bot) != ""
    ensures exists r :: r in rows && Pushed(r) && r.bot == bot && r.branch == Own(rows, bot)
  {
    if Pushed(rows[0]) && rows[0].bot == bot {
      assert rows[0] in rows;
    } else {
      OwnIsPushed(rows[1..], bot);
    }
  }

  /** What a claimed build is given was made by a Run of its own Bot, if only by itself. */
  lemma TargetIsMade(s: State, id: Id, name: Id -> string)
    requires Separate(s.runs, name) && RunAt(s.runs, id) < |s.runs| && s.runs[RunAt(s.runs, id)].kind.Build?
    ensures MadeBy(s.runs, name, Target(s, id, name), s.runs[RunAt(s.runs, id)].bot)
  {
    var r := s.runs[RunAt(s.runs, id)];
    assert r in s.runs;
    if Own(s.runs, r.bot) != "" {
      OwnIsPushed(s.runs, r.bot);
    }
  }

  // --- where a row's branch comes from ---

  lemma DoAddsBlank(t: State, m: Move, tx: Tx)
    ensures forall r :: r in Do(t, m, tx).runs ==> r in t.runs || r.branch == ""
  {}

  /** A Run's branch is what it was, or what its own report says. */
  predicate BranchFrom(r: Run, r': Run, op: Op) {
    r'.id == r.id && r'.bot == r.bot && r'.kind == r.kind
    && (r'.branch == r.branch || (op.OpReport? && op.run == r.id && op.rep.branch == r'.branch && op.rep.branch != ""))
  }

  lemma MovedRows(s: State, t: State, op: Op)
    requires |t.runs| == |s.runs| && forall i :: 0 <= i < |s.runs| ==> BranchFrom(s.runs[i], t.runs[i], op)
    ensures forall r' :: r' in t.runs ==> exists r :: r in s.runs && BranchFrom(r, r', op)
  {
    forall r' | r' in t.runs ensures exists r :: r in s.runs && BranchFrom(r, r', op) {
      var i :| 0 <= i < |t.runs| && t.runs[i] == r';
      assert s.runs[i] in s.runs;
    }
  }

  lemma ReportedBranch(s: State, op: Op, tx: Tx)
    requires op.OpReport? && Report(s, op.agent, op.run, op.rep, tx).Committed?
    ensures forall r' :: r' in Report(s, op.agent, op.run, op.rep, tx).state.runs && r'.branch != "" ==>
      exists r :: r in s.runs && BranchFrom(r, r', op)
  {
    var i := RunAt(s.runs, op.run);
    var x := Reported(s.runs[i], op.rep, tx.now);
    var t := s.(runs := s.runs[i := x]);
    MovedRows(s, t, op);
    if op.rep.status.Terminal() {
      var u := t.(decisions := CloseQuestions(s.decisions, {op.run}), task := TaskAfter(s.project, s.task, x, tx.now));
      assert Report(s, op.agent, op.run, op.rep, tx).state == Do(u, AfterRun(u, x), tx);
      DoAddsBlank(u, AfterRun(u, x), tx);
    }
  }

  lemma WorkerBranch(s: State, op: Op, tx: Tx)
    requires op.OpClaim? || op.OpHeartbeat? || op.OpReap? || op.OpRemoveMember? || op.OpAskPermission?
      || op.OpSetTaskStatus? || op.OpUpdateProject? || op.OpJoin?
    ensures forall r' :: r' in Step(s, op, tx).runs ==> exists r :: r in s.runs && BranchFrom(r, r', op)
  {
    MovedRows(s, Step(s, op, tx), op);
  }

  lemma AnsweredBranch(s: State, id: Id, answer: string, tx: Tx)
    requires Answer(s, id, answer, tx).Committed?
    ensures forall r' :: r' in Answer(s, id, answer, tx).state.runs ==> r' in s.runs || r'.branch == ""
  {
    var i := DecisionAt(s.decisions, id);
    var d := s.decisions[i].(answer := answer);
    var t := s.(decisions := s.decisions[i := d]);
    DoAddsBlank(t, OnDecision(t, d), tx);
  }

  lemma CheckedBranch(s: State, op: Op, tx: Tx)
    requires (op.OpRecordCheck? || op.OpUpdateCheck?) && Perform(s, op, tx).Committed?
    ensures forall r' :: r' in Perform(s, op, tx).state.runs ==> r' in s.runs || r'.branch == ""
  {
    if op.OpRecordCheck? {
      var c := Check(tx.newCheck, op.name, op.checkStatus, op.commit, tx.now, tx.now);
      var t := s.(checks := Insert(s.checks, c, CheckBefore));
      DoAddsBlank(t, OnCheck(t, c), tx);
    } else {
      var i := CheckAt(s.checks, op.check);
      var c := s.checks[i].(status := op.checkStatus, updatedAt := tx.now);
      var t := s.(checks := s.checks[i := c]);
      DoAddsBlank(t, OnCheck(t, c), tx);
    }
  }

  lemma RequestedBranch(s: State, op: Op, tx: Tx)
    requires (op.OpRequestRun? || op.OpHandTask?) && Perform(s, op, tx).Committed?
    ensures forall r' :: r' in Perform(s, op, tx).state.runs ==> r' in s.runs || r'.branch == ""
  {}

  lemma AddedBranch(s: State, op: Op, tx: Tx)
    requires op.OpAnswer? || op.OpRecordCheck? || op.OpUpdateCheck? || op.OpRequestRun? || op.OpHandTask?
    ensures forall r' :: r' in Step(s, op, tx).runs ==> r' in s.runs || r'.branch == ""
  {
    if Fresh(s, tx) && Perform(s, op, tx).Committed? {
      if op.OpAnswer? {
        AnsweredBranch(s, op.decision, op.answer, tx);
      } else if op.OpRecordCheck? || op.OpUpdateCheck? {
        CheckedBranch(s, op, tx);
      } else {
        RequestedBranch(s, op, tx);
      }
    }
  }

  lemma StepBranch(s: State, op: Op, tx: Tx, r': Run)
    requires r' in Step(s, op, tx).runs && r'.branch != ""
    ensures exists r :: r in s.runs && BranchFrom(r, r', op)
  {
    if op.OpReport? {
      if Fresh(s, tx) && Report(s, op.agent, op.run, op.rep, tx).Committed? {
        ReportedBranch(s, op, tx);
      } else {
        assert BranchFrom(r', r', op);
      }
    } else if op.OpAnswer? || op.OpRecordCheck? || op.OpUpdateCheck? || op.OpRequestRun? || op.OpHandTask? {
      AddedBranch(s, op, tx);
      assert BranchFrom(r', r', op);
    } else {
      WorkerBranch(s, op, tx);
    }
  }

  // --- over whole runs of the machine ---

  lemma MadeStays(s: State, script: seq<Input>, m: nat, n: nat, name: Id -> string, branch: string, bot: Option<Id>)
    requires NewTask(s) && m <= n <= |script| && MadeBy(After(s, script[..m]).runs, name, branch, bot)
    ensures MadeBy(After(s, script[..n]).runs, name, branch, bot)
  {
    assert script[..m] + script[m..n] == script[..n];
    RowsForLife(s, script[..m], script[m..n]);
    var k :| k in After(s, script[..m]).runs && k.bot == bot && branch == name(k.id);
    var k' :| k' in After(s, script[..n]).runs && Descends(k, k');
  }

  /** A row keeps its Bot and its kind. */
  lemma SameBotIn(a: State, b: State, id: Id)
    requires RunsOk(b.runs) && Kept(a, b) && RunAt(a.runs, id) < |a.runs| && RunAt(b.runs, id) < |b.runs|
    ensures var r, r' := a.runs[RunAt(a.runs, id)], b.runs[RunAt(b.runs, id)];
      r.bot == r'.bot && r.kind == r'.kind
  {
    var r, r' := a.runs[RunAt(a.runs, id)], b.runs[RunAt(b.runs, id)];
    assert r in a.runs && r' in b.runs;
    var x :| x in b.runs && Descends(r, x);
    OneRowPerId(b.runs, x, r');
  }

  lemma SameBot(s: State, script: seq<Input>, m: nat, n: nat, id: Id)
    requires NewTask(s) && m <= n <= |script|
    requires RunAt(After(s, script[..m]).runs, id) < |After(s, script[..m]).runs|
    requires RunAt(After(s, script[..n]).runs, id) < |After(s, script[..n]).runs|
    ensures var a, b := After(s, script[..m]).runs, After(s, script[..n]).runs;
      a[RunAt(a, id)].bot == b[RunAt(b, id)].bot && a[RunAt(a, id)].kind == b[RunAt(b, id)].kind
  {
    assert script[..m] + script[m..n] == script[..n];
    RowsForLife(s, script[..m], script[m..n]);
    AlwaysInv(s, script[..n]);
    SameBotIn(After(s, script[..m]), After(s, script[..n]), id);
  }

  lemma ReportSeparates(s: State, script: seq<Input>, n: nat, name: Id -> string)
    requires NewTask(s) && n < |script| && ReportsOwn(s, script, n, name) && script[n].op.OpReport?
      && script[n].op.rep.branch != ""
    requires forall m :: 0 <= m <= n ==> Separate(After(s, script[..m]).runs, name)
    requires var op := script[n].op; Report(After(s, script[..n]), op.agent, op.run, op.rep, script[n].tx).Committed?
    ensures var a := After(s, script[..n]);
      MadeBy(a.runs, name, script[n].op.rep.branch, a.runs[RunAt(a.runs, script[n].op.run)].bot)
  {
    var op := script[n].op;
    var m :| 0 <= m < n && GivenAt(s, script, m, op.run, op.rep.branch, name);
    SameBot(s, script, m, n, op.run);
    var b := After(s, script[..m]);
    TargetIsMade(b, op.run, name);
    MadeStays(s, script, m, n, name, op.rep.branch, b.runs[RunAt(b.runs, op.run)].bot);
  }

  lemma {:induction false} AlwaysSeparate(s: State, script: seq<Input>, name: Id -> string, n: nat)
    requires NewTask(s) && n <= |script| && forall k :: 0 <= k < |script| ==> ReportsOwn(s, script, k, name)
    ensures forall m :: 0 <= m <= n ==> Separate(After(s, script[..m]).runs, name)
  {
    if n > 0 {
      AlwaysSeparate(s, script, name, n - 1);
      SeparateOneMore(s, script, name, n - 1);
    }
  }

  lemma SeparateOneMore(s: State, script: seq<Input>, name: Id -> string, n: nat)
    requires NewTask(s) && n < |script| && ReportsOwn(s, script, n, name)
    requires forall m :: 0 <= m <= n ==> Separate(After(s, script[..m]).runs, name)
    ensures Separate(After(s, script[..n + 1]).runs, name)
  {
    var a, b := After(s, script[..n]), After(s, script[..n + 1]);
    var op := script[n].op;
    assert script[..n + 1][..n] == script[..n];
    AlwaysInv(s, script[..n]);
    forall r' | r' in b.runs && r'.branch != ""
      ensures MadeBy(b.runs, name, r'.branch, r'.bot)
    {
      StepBranch(a, op, script[n].tx, r');
      var r :| r in a.runs && BranchFrom(r, r', op);
      if r'.branch != r.branch {
        if b == a {
          OneRowPerId(a.runs, r, r');
        }
        assert RunAt(a.runs, op.run) < |a.runs| && a.runs[RunAt(a.runs, op.run)] in a.runs;
        OneRowPerId(a.runs, r, a.runs[RunAt(a.runs, op.run)]);
        ReportSeparates(s, script, n, name);
      }
      MadeStays(s, script, n, n + 1, name, r'.branch, r'.bot);
    }
  }

  /** Main result: over every run of the Task machine in which builds report the branch they were given, two Runs that
      pushed to one branch belong to one Bot. */
  lemma BotsNeverShareABranch(s: State, script: seq<Input>, name: Id -> string, a: Run, b: Run)
    requires NewTask(s) && Distinct(name) && forall k :: 0 <= k < |script| ==> ReportsOwn(s, script, k, name)
    requires a in After(s, script).runs && b in After(s, script).runs && a.branch != "" && a.branch == b.branch
    ensures a.bot == b.bot
  {
    AlwaysSeparate(s, script, name, |script|);
    assert script[..|script|] == script;
    AlwaysInv(s, script);
    var runs := After(s, script).runs;
    var x :| x in runs && x.bot == a.bot && a.branch == name(x.id);
    var y :| y in runs && y.bot == b.bot && b.branch == name(y.id);
    OneRowPerId(runs, x, y);
  }

  // --- whatever workers report: exactly when Bots share a branch ---

  ghost predicate Apart(runs: seq<Run>) {
    forall a, b :: a in runs && b in runs && a.branch != "" && a.branch == b.branch ==> a.bot == b.bot
  }

  /** The report is accepted and names a branch that a Run of another Bot carries. */
  ghost predicate TakesAnothers(s: State, op: Op, tx: Tx) {
    && op.OpReport? && op.rep.branch != "" && Fresh(s, tx)
    && Report(s, op.agent, op.run, op.rep, tx).Committed?
    && exists r :: r in s.runs && r.branch == op.rep.branch && r.bot != s.runs[RunAt(s.runs, op.run)].bot
  }

  lemma DoKeepsRuns(t: State, m: Move, tx: Tx)
    ensures forall r :: r in t.runs ==> r in Do(t, m, tx).runs
  {}

  lemma ReportKeepsRows(s: State, op: Op, tx: Tx)
    requires op.OpReport? && Report(s, op.agent, op.run, op.rep, tx).Committed?
    ensures var i, rows := RunAt(s.runs, op.run), Report(s, op.agent, op.run, op.rep, tx).state.runs;
      && Reported(s.runs[i], op.rep, tx.now) in rows
      && forall r :: r in s.runs && r.id != op.run ==> r in rows
  {
    var i := RunAt(s.runs, op.run);
    var x := Reported(s.runs[i], op.rep, tx.now);
    var moved := s.runs[i := x];
    assert moved[i] == x;
    forall r | r in s.runs && r.id != op.run
      ensures r in moved
    {
      var j :| 0 <= j < |s.runs| && s.runs[j] == r;
      assert moved[j] == r;
    }
    if op.rep.status.Terminal() {
      var u := s.(runs := moved, decisions := CloseQuestions(s.decisions, {op.run}),
                  task := TaskAfter(s.project, s.task, x, tx.now));
      assert Report(s, op.agent, op.run, op.rep, tx).state == Do(u, AfterRun(u, x), tx);
      DoKeepsRuns(u, AfterRun(u, x), tx);
    }
  }

  /** A Run that carries a branch after the step carried it before, or its Bot's Run just reported it. */
  lemma Carried(s: State, op: Op, tx: Tx, r': Run)
    requires Inv(s) && !TakesAnothers(s, op, tx) && r' in Step(s, op, tx).runs && r'.branch != ""
    ensures
      || (exists r :: r in s.runs && r.bot == r'.bot && r.branch == r'.branch)
      || (op.OpReport? && op.rep.branch == r'.branch && RunAt(s.runs, op.run) < |s.runs|
          && r'.bot == s.runs[RunAt(s.runs, op.run)].bot
          && forall r :: r in s.runs && r.branch == r'.branch ==> r.bot == r'.bot)
  {
    StepBranch(s, op, tx, r');
    var r :| r in s.runs && BranchFrom(r, r', op);
    if r.branch != r'.branch {
      var x := s.runs[RunAt(s.runs, op.run)];
      assert x in s.runs;
      OneRowPerId(s.runs, r, x);
      if !(Fresh(s, tx) && Report(s, op.agent, op.run, op.rep, tx).Committed?) {
        OneRowPerId(s.runs, r, r');
      }
    }
  }

  lemma StepKeepsApart(s: State, op: Op, tx: Tx)
    requires Inv(s) && Apart(s.runs)
    ensures Apart(Step(s, op, tx).runs) <==> !TakesAnothers(s, op, tx)
  {
    var rows := Step(s, op, tx).runs;
    if TakesAnothers(s, op, tx) {
      var i := RunAt(s.runs, op.run);
      var r :| r in s.runs && r.branch == op.rep.branch && r.bot != s.runs[i].bot;
      assert s.runs[i] in s.runs;
      if r.id == op.run {
        OneRowPerId(s.runs, r, s.runs[i]);
      }
      ReportKeepsRows(s, op, tx);
      assert r in rows && Reported(s.runs[i], op.rep, tx.now) in rows;
    } else {
      forall a, b | a in rows && b in rows && a.branch != "" && a.branch == b.branch
        ensures a.bot == b.bot
      {
        Carried(s, op, tx, a);
        Carried(s, op, tx, b);
      }
    }
  }

  ghost predicate ApartAt(s: State, script: seq<Input>, n: nat)
    requires n <= |script|
  {
    Apart(After(s, script[..n]).runs)
  }

  ghost predicate TakesAt(s: State, script: seq<Input>, n: nat)
    requires n < |script|
  {
    TakesAnothers(After(s, script[..n]), script[n].op, script[n].tx)
  }

  lemma ApartOneMore(s: State, script: seq<Input>, n: nat)
    requires NewTask(s) && n < |script| && ApartAt(s, script, n)
    ensures ApartAt(s, script, n + 1) <==> !TakesAt(s, script, n)
  {
    assert script[..n + 1][..n] == script[..n];
    AlwaysInv(s, script[..n]);
    StepKeepsApart(After(s, script[..n]), script[n].op, script[n].tx);
  }

  lemma {:induction false} ApartUntil(s: State, script: seq<Input>, n: nat)
    requires NewTask(s) && n <= |script|
    requires forall k :: 0 <= k < n ==> !TakesAt(s, script, k)
    ensures ApartAt(s, script, n)
  {
    if n > 0 {
      ApartUntil(s, script, n - 1);
      ApartOneMore(s, script, n - 1);
    }
  }

  /** Main result, whatever workers report: no two Bots ever have Runs on one branch if and only if no report that is
      accepted names a branch that another Bot's Run carries at that moment. */
  lemma BotsStayApartExactlyWhen(s: State, script: seq<Input>)
    requires NewTask(s)
    ensures (forall n :: 0 <= n <= |script| ==> ApartAt(s, script, n))
       <==> (forall n :: 0 <= n < |script| ==> !TakesAt(s, script, n))
  {
    if forall n :: 0 <= n < |script| ==> !TakesAt(s, script, n) {
      forall n | 0 <= n <= |script|
        ensures ApartAt(s, script, n)
      {
        ApartUntil(s, script, n);
      }
    }
    if forall n :: 0 <= n <= |script| ==> ApartAt(s, script, n) {
      forall n | 0 <= n < |script|
        ensures !TakesAt(s, script, n)
      {
        assert ApartAt(s, script, n) && ApartAt(s, script, n + 1);
        ApartOneMore(s, script, n);
      }
    }
  }
}
