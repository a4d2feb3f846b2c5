/** The operations as the Server carries them out: fields updated in place, rows looked through in loops.
    Each is proved to do exactly what TaskMachine says. */
module TaskBoard {
  import opened Lists
  import opened Models
  import opened TaskMachine
  import opened TaskLaws
  import opened TaskChecks

  /** A rejected transaction leaves nothing behind. */
  ghost predicate Follows(o: Outcome, s: State, error: Option<Error>, s': State) {
    match o
    case Committed(t) => error == None && s' == t
    case RolledBack(e) => error == Some(e) && s' == s
  }

  lemma CloseTwice(ds: seq<Decision>, a: set<Id>, b: set<Id>)
    ensures CloseQuestions(CloseQuestions(ds, a), b) == CloseQuestions(ds, a + b)
  {}

  lemma CloseNone(ds: seq<Decision>)
    ensures CloseQuestions(ds, {}) == ds
  {}

  /** The check at l is the latest relevant one of its name among the first n. */
  predicate LatestIn(cs: seq<Check>, n: nat, l: nat, head: string, build: Option<Run>)
    requires l < n <= |cs|
  {
    && Relevant(cs[l], head, build)
    && forall j :: 0 <= j < n && cs[j].name == cs[l].name && Relevant(cs[j], head, build) ==>
         cs[j].updatedAt < cs[l].updatedAt || (cs[j].updatedAt == cs[l].updatedAt && l <= j)
  }

  lemma LatestAllSpeak(cs: seq<Check>, latest: map<string, nat>, head: string, build: Option<Run>)
    requires forall name :: name in latest ==>
               latest[name] < |cs| && cs[latest[name]].name == name
               && LatestIn(cs, |cs|, latest[name], head, build)
    requires forall j :: 0 <= j < |cs| && Relevant(cs[j], head, build) ==> cs[j].name in latest
    ensures forall name :: name in latest ==> Speaks(cs, About(cs, head, Began(build)), latest[name])
    ensures forall j :: j in About(cs, head, Began(build)) ==> cs[j].name in latest
  {
    LatestSpeaks(cs, head, build);
    RelevantIsAbout(cs, head, build);
    assert forall name :: name in latest ==> Latest(cs, latest[name], head, build);
  }

  /** A relevant check becomes the latest of its name when it is the first or strictly newer. */
  lemma NewLatest(cs: seq<Check>, i: nat, was: Option<nat>, head: string, build: Option<Run>)
    requires i < |cs| && Relevant(cs[i], head, build)
    requires was.Some? ==>
      was.value < i && cs[was.value].name == cs[i].name && cs[was.value].updatedAt < cs[i].updatedAt
      && LatestIn(cs, i, was.value, head, build)
    requires was.None? ==> forall j :: 0 <= j < i && Relevant(cs[j], head, build) ==> cs[j].name != cs[i].name
    ensures LatestIn(cs, i + 1, i, head, build)
  {}

  class Board {
    var project: Project
    var members: seq<Member>
    var task: Task
    var runs: seq<Run>
    var decisions: seq<Decision>
    var checks: seq<Check>

    ghost function Value(): State
      reads this
    {
      State(project, members, task, runs, decisions, checks)
    }

    /** What every operation keeps. */
    ghost predicate Valid()
      reads this
    {
      Inv(Value())
    }

    constructor (p: Project, ms: seq<Member>)
      ensures Valid()
      ensures Value() == State(p, ms, Task(Open, None, "", "", None), [], [], [])
    {
      project, members := p, ms;
      task := Task(Open, None, "", "", None);
      runs, decisions, checks := [], [], [];
    }

    // --- looking ---

    /** The earliest current Member with a Role. */
    method MemberByRole(role: Role) returns (m: Option<Member>)
      ensures m == Holder(members, role)
    {
      var holds := (m: Member) => m.role == role && !m.left;
      for i := 0 to |members|
        invariant First(members, holds) == First(members[i..], holds)
      {
        if members[i].role == role && !members[i].left {
          return Some(members[i]);
        }
      }
      return None;
    }

    /** Sums up the Task's checks on its latest push. */
    method SumUpChecks(head: string, build: Option<Run>) returns (state: CheckStatus)
      ensures state == CiState(checks, head, build)
    {
      if |checks| == 0 {
        return CheckSuccess;
      }
      var latest := LatestByName(head, build);
      LatestSpeaks(checks, head, build);
      RelevantIsAbout(checks, head, build);
      if latest == map[] {
        return CheckPending;
      }
      forall name | name in latest
        ensures Latest(checks, latest[name], head, build)
      {}
      state := CheckSuccess;
      var names := latest.Keys;
      while names != {}
        invariant names <= latest.Keys
        invariant state == CheckSuccess || state == CheckPending
        invariant forall name :: name in latest && name !in names ==> checks[latest[name]].status != CheckFailure
        invariant state == CheckPending <==>
                    exists name :: name in latest && name !in names && checks[latest[name]].status == CheckPending
        decreases names
      {
        var name :| name in names;
        if checks[latest[name]].status == CheckFailure {
          assert SomeLatest(checks, head, build, CheckFailure);
          return CheckFailure;
        }
        if checks[latest[name]].status == CheckPending {
          state := CheckPending;
        }
        names := names - {name};
      }
      LatestIsInMap(latest, head, build);
    }

    lemma LatestIsInMap(latest: map<string, nat>, head: string, build: Option<Run>)
      requires forall name :: name in latest ==>
                 latest[name] < |checks| && checks[latest[name]].name == name
                 && Latest(checks, latest[name], head, build)
      requires forall j :: 0 <= j < |checks| && Relevant(checks[j], head, build) ==> checks[j].name in latest
      ensures forall status :: SomeLatest(checks, head, build, status) <==>
                exists name :: name in latest && checks[latest[name]].status == status
    {
      forall i | 0 <= i < |checks| && Latest(checks, i, head, build)
        ensures checks[i].name in latest && latest[checks[i].name] == i
      {
        var l := latest[checks[i].name];
        assert checks[l].name == checks[i].name;
      }
    }

    /** Keeps, for each check name, the result about the latest push that was updated last. */
    method LatestByName(head: string, build: Option<Run>) returns (latest: map<string, nat>)
      ensures forall name :: name in latest ==>
                Speaks(checks, About(checks, head, Began(build)), latest[name]) && checks[latest[name]].name == name
      ensures forall j :: j in About(checks, head, Began(build)) ==> checks[j].name in latest
    {
      latest := map[];
      for i := 0 to |checks|
        invariant forall name :: name in latest ==>
                    latest[name] < i && checks[latest[name]].name == name
                    && LatestIn(checks, i, latest[name], head, build)
        invariant forall j :: 0 <= j < i && Relevant(checks[j], head, build) ==> checks[j].name in latest
      {
        var c := checks[i];
        var about := if c.commit != "" && head != "" then EqualFold(c.commit, head)
                     else !(build.Some? && build.value.startedAt.Some? && c.updatedAt < build.value.startedAt.value);
        assert about == Relevant(c, head, build);
        ghost var was := latest;
        if about && (c.name !in latest || c.updatedAt > checks[latest[c.name]].updatedAt) {
          latest := latest[c.name := i];
          NewLatest(checks, i, if c.name in was then Some(was[c.name]) else None, head, build);
        }
        forall name | name in latest && latest[name] < i
          ensures LatestIn(checks, i + 1, latest[name], head, build)
        {
          assert was[name] == latest[name];
        }
      }
      LatestAllSpeak(checks, latest, head, build);
    }

    // --- the autopilot ---

    method Queue(r: Run)
      modifies this`runs
      ensures Value() == QueueRun(old(Value()), r)
    {
      runs := Insert(runs, r, RunBefore);
    }

    method StartRun(bot: Option<Member>, kind: Option<RunKind>, origin: Origin, tx: Tx)
      modifies this`runs
      ensures Value() == CreateRun(old(Value()), bot, kind, origin, tx)
    {
      var k := Build;
      if kind.Some? {
        k := kind.value;
      } else if bot.Some? {
        k := KindForRole(bot.value.role);
      }
      var r := NewRun(k, None, "", origin, tx);
      if bot.Some? {
        r := r.(bot := Some(bot.value.id));
      }
      Queue(r);
    }

    method Hand(to: Member, autorun: bool, origin: Origin, tx: Tx)
      modifies this`task, this`runs
      ensures Value() == HandOff(old(Value()), to, autorun, origin, tx)
    {
      var nothingToReview := to.role.Sentry? && task.branch == "";
      task := task.(assignee := Some(to.id));
      if task.status != InProgress {
        task := task.(status := InProgress);
      }
      if to.isBot && WorksOnTasks(to.role) && (autorun || project.autoRun) && !nothingToReview {
        StartRun(Some(to), None, origin, tx);
      }
    }

    method Pass(fromRole: Role, toRole: Role, origin: Origin, tx: Tx)
      modifies this`task, this`runs
      ensures Value() == Do(old(Value()), PassOn(old(Value()), fromRole, toRole, origin), tx)
    {
      var from := MemberByRole(fromRole);
      var to := MemberByRole(toRole);
      if from.None? || to.None? {
        return;
      }
      Hand(to.value, true, origin, tx);
    }

    method AskToMerge(tx: Tx)
      modifies this`decisions
      ensures Value() == Ask(old(Value()), tx)
    {
      for i := 0 to |decisions|
        invariant decisions == old(decisions)
        invariant forall j :: 0 <= j < i ==> !OpenAsk(decisions[j])
      {
        if decisions[i].action == MergeIt && decisions[i].answer == "" {
          assert OpenAsk(decisions[i]);
          return;
        }
      }
      decisions := decisions + [Decision(tx.newDecision, MergeIt, task.head, None, "")];
    }

    method SendItBack(tx: Tx)
      modifies this`task, this`runs, this`decisions
      ensures Value() == Do(old(Value()), SendBack(old(Value())), tx)
    {
      var builds := 0;
      for i := 0 to |runs|
        invariant Value() == old(Value())
        invariant builds + Count(runs[i..], DoneBuild) == Count(runs, DoneBuild)
        invariant forall j :: 0 <= j < i ==> !ActiveBuild(runs[j])
      {
        var r := runs[i];
        assert runs[i..][1..] == runs[i + 1..];
        if r.kind == Build {
          if !r.status.Terminal() {
            assert ActiveBuild(r) && r in runs;
            return; // the Builder is already on it
          }
          if r.status == Succeeded {
            builds := builds + 1;
          }
        }
      }
      if builds < MAX_ROUNDS {
        Pass(Sentry, Builder, SentBack, tx);
      } else {
        AskToMerge(tx);
      }
    }

    /** One pass over the listing: is a merge under way, and which build and review succeeded last? */
    method LastWork() returns (merging: bool, lastBuild: Option<Run>, lastReview: Option<Run>)
      ensures merging <==> exists r :: r in runs && ActiveMerge(r)
      ensures !merging ==> lastBuild == First(runs, DoneBuild) && lastReview == First(runs, DoneReview)
    {
      merging, lastBuild, lastReview := false, None, None;
      for i := 0 to |runs|
        invariant forall j :: 0 <= j < i ==> !ActiveMerge(runs[j])
        invariant First(runs, DoneBuild) == if lastBuild.Some? then lastBuild else First(runs[i..], DoneBuild)
        invariant First(runs, DoneReview) == if lastReview.Some? then lastReview else First(runs[i..], DoneReview)
      {
        var r := runs[i];
        assert runs[i..][0] == r && runs[i..][1..] == runs[i + 1..];
        if r.kind == Merge && !r.status.Terminal() {
          assert ActiveMerge(r) && r in runs;
          return true, lastBuild, lastReview;
        }
        if r.status != Succeeded {
          continue;
        }
        if r.kind == Build && lastBuild.None? {
          lastBuild := Some(r);
        }
        if r.kind == Review && lastReview.None? {
          lastReview := Some(r);
        }
      }
      return false, lastBuild, lastReview;
    }

    method MergeIfApproved(tx: Tx)
      modifies this`task, this`runs, this`decisions
      ensures Value() == Do(old(Value()), TryMerge(old(Value())), tx)
    {
      if task.mergedAt.Some? || task.branch == "" {
        return;
      }
      var merging, lastBuild, lastReview := LastWork();
      if merging {
        return; // already merging
      }
      if lastReview.None? || lastReview.value.verdict != Approve || !Reviewed(lastReview.value, lastBuild, task) {
        return; // the latest work is not approved
      }
      var ci := SumUpChecks(task.head, lastBuild);
      match ci
      case CheckFailure => SendItBack(tx);
      case CheckPending =>
      case CheckSuccess =>
        if project.policy == AskFirst {
          AskToMerge(tx);
        } else {
          QueueMerge(tx);
        }
    }

    method QueueMerge(tx: Tx)
      modifies this`runs
      ensures Value() == Do(old(Value()), Land, tx)
    {
      Queue(NewRun(Merge, None, task.head, ByAutopilot, tx));
    }

    /** Runs after r finished, in the same transaction. */
    method AdvanceAfter(r: Run, tx: Tx)
      modifies this`task, this`runs, this`decisions
      ensures Value() == Advance(old(Value()), r, tx)
    {
      if r.status != Succeeded {
        return;
      }
      if r.kind == Merge {
        task := task.(status := Done, mergedAt := Some(tx.now));
        return;
      }
      if r.kind == Build && r.branch != "" && r.branch != project.defaultBranch {
        task := task.(branch := r.branch);
        if r.commit != "" {
          task := task.(head := r.commit);
        }
      }
      if !project.autoRun || task.status == Done || task.status == Dropped {
        return;
      }
      match r.kind
      case Plan => Pass(Scout, Builder, ByAutopilot, tx);
      case Build =>
        if task.branch != "" {
          Pass(Builder, Sentry, ByAutopilot, tx);
        }
      case Review =>
        if r.verdict == Approve {
          MergeIfApproved(tx);
        } else if r.verdict == Changes {
          SendItBack(tx);
        }
    }

    method CheckArrived(c: Check, tx: Tx)
      modifies this`task, this`runs, this`decisions
      ensures Value() == Do(old(Value()), OnCheck(old(Value()), c), tx)
    {
      if task.branch == "" || task.mergedAt.Some? || task.status == Done || task.status == Dropped {
        return;
      }
      if !project.autoRun {
        return;
      }
      if c.status == CheckFailure {
        SendItBack(tx);
      } else if c.status == CheckSuccess {
        MergeIfApproved(tx);
      }
    }

    method ActOn(d: Decision, tx: Tx)
      modifies this`runs
      ensures Value() == Do(old(Value()), OnDecision(old(Value()), d), tx)
    {
      if d.action != MergeIt || !EqualFold(d.answer, "merge") {
        return;
      }
      if task.mergedAt.Some? || task.branch == "" || task.status == Dropped || task.status == Done {
        return;
      }
      if d.commit != "" && d.commit != task.head {
        return; // new work was pushed after the question was asked
      }
      for i := 0 to |runs|
        invariant Value() == old(Value())
        invariant forall j :: 0 <= j < i ==> !ActiveMerge(runs[j])
      {
        if runs[i].kind == Merge && !runs[i].status.Terminal() {
          assert ActiveMerge(runs[i]) && runs[i] in runs;
          return;
        }
      }
      QueueMerge(tx);
    }

    // --- the operations ---

    method RunEnded(id: Id)
      modifies this`decisions
      ensures decisions == CloseQuestions(old(decisions), {id})
    {
      decisions := CloseQuestions(decisions, {id});
    }

    method ReportRun(agent: string, id: Id, rep: RunReport, tx: Tx) returns (error: Option<Error>)
      modifies this
      ensures Follows(Report(old(Value()), agent, id, rep, tx), old(Value()), error, Value())
    {
      if agent == "" && (rep.status != Canceled || rep.summary.Summary? || rep.branch != "" || rep.commit != "") {
        return Some(Invalid);
      }
      var i := RunAt(runs, id);
      if i == |runs| {
        return Some(NotFound);
      }
      var r := runs[i];
      if !OwnRun(agent, r) || (rep.status != r.status && !r.status.CanBecome(rep.status)) || r.status.Terminal() {
        return Some(Conflict);
      }
      r := r.(status := rep.status);
      if rep.summary.Summary? {
        r := r.(summary := rep.summary);
      }
      if rep.branch != "" {
        r := r.(branch := rep.branch);
      }
      if rep.commit != "" && r.kind != Merge {
        r := r.(commit := rep.commit);
      }
      if r.kind == Review && rep.status == Succeeded {
        r := r.(verdict := if r.summary.Summary? then r.summary.verdict else NoVerdict);
      }
      if rep.status == Running && r.startedAt.None? {
        r := r.(startedAt := Some(tx.now));
      }
      if rep.status.Terminal() {
        r := r.(finishedAt := Some(tx.now), lease := None);
      }
      assert r == Reported(runs[i], rep, tx.now);
      runs := runs[i := r];
      if rep.status.Terminal() {
        RunEnded(id);
        AdvanceAfter(r, tx);
      }
      return None;
    }

    method ClaimRun(agent: string, bot: Id, id: Id, until: Time, tx: Tx) returns (error: Option<Error>)
      modifies this`runs
      ensures Follows(Claim(old(Value()), agent, bot, id, until, tx), old(Value()), error, Value())
    {
      if agent == "" {
        return Some(Invalid);
      }
      var i := RunAt(runs, id);
      if i == |runs| || runs[i].status != Pending || project.archived
         || !(runs[i].bot == None || runs[i].bot == Some(bot)) {
        return Some(NotFound);
      }
      var r := runs[i].(status := Running, worker := agent, lease := Some(until), attempts := runs[i].attempts + 1);
      if r.startedAt.None? {
        r := r.(startedAt := Some(tx.now));
      }
      runs := runs[i := r];
      return None;
    }

    method ExtendLease(agent: string, id: Id, until: Time) returns (error: Option<Error>)
      modifies this`runs
      ensures Follows(Heartbeat(old(Value()), agent, id, until), old(Value()), error, Value())
    {
      if agent == "" {
        return Some(Invalid);
      }
      var i := RunAt(runs, id);
      if i == |runs| {
        return Some(NotFound);
      }
      if runs[i].worker != agent {
        return Some(Conflict);
      }
      if runs[i].status == Running {
        runs := runs[i := runs[i].(lease := Some(until))];
      }
      return None;
    }

    /** Fails Runs whose worker stopped heartbeating; nothing is retried. */
    method ReapRuns(picked: set<Id>, tx: Tx)
      modifies this
      ensures Value() == Reap(old(Value()), picked, tx)
    {
      ghost var ended: set<Id> := {};
      ghost var was := runs;
      ghost var asked := decisions;
      CloseNone(decisions);
      for i := 0 to |runs|
        invariant |runs| == |was| && project == old(project) && members == old(members) && task == old(task)
          && checks == old(checks)
        invariant forall j :: 0 <= j < |was| ==> runs[j] == if j < i then Reaped(was[j], picked, tx.now) else was[j]
        invariant ended == set j | 0 <= j < i && was[j].id in picked && Expired(was[j], tx.now) :: was[j].id
        invariant decisions == CloseQuestions(asked, ended)
      {
        var r := runs[i];
        if r.id in picked && Expired(r, tx.now) {
          r := r.(status := Failed, lease := None, finishedAt := Some(tx.now));
          runs := runs[i := r];
          CloseTwice(asked, ended, {r.id});
          RunEnded(r.id);
          ended := ended + {r.id};
          AdvanceAfter(r, tx);
        }
      }
      assert runs == Map(was, (r: Run) => Reaped(r, picked, tx.now));
      assert ended == set r | r in was && r.id in picked && Expired(r, tx.now) :: r.id by {
        assert forall r :: r in was ==> exists j :: 0 <= j < |was| && was[j] == r;
      }
    }

    /** Takes a person or Bot out of the Project; a Bot's Runs stop and their questions close. */
    method Remove(id: Id, tx: Tx) returns (error: Option<Error>)
      modifies this
      ensures Follows(RemoveMember(old(Value()), id, tx), old(Value()), error, Value())
    {
      var m := MemberAt(members, id);
      if m == |members| {
        return Some(NotFound);
      }
      if project.archived {
        return Some(Conflict);
      }
      if members[m].left {
        return None;
      }
      members := members[m := members[m].(left := true)];
      if !members[m].isBot {
        return None;
      }
      ghost var ended: set<Id> := {};
      ghost var asked := decisions;
      var was := runs;
      runs := Map(runs, (r: Run) => Stopped(r, id, tx.now));
      CloseNone(decisions);
      for i := 0 to |was|
        invariant Value() == old(Value()).(members := members, runs := runs, decisions := decisions)
        invariant members == old(members)[m := old(members)[m].(left := true)]
        invariant runs == Map(was, (r: Run) => Stopped(r, id, tx.now))
        invariant ended == set j | 0 <= j < i && WorksFor(was[j], id) :: was[j].id
        invariant decisions == CloseQuestions(asked, ended)
      {
        if WorksFor(was[i], id) {
          CloseTwice(asked, ended, {was[i].id});
          RunEnded(was[i].id);
          ended := ended + {was[i].id};
        }
      }
      assert ended == set r | r in was && WorksFor(r, id) :: r.id by {
        assert forall r :: r in was ==> exists j :: 0 <= j < |was| && was[j] == r;
      }
      return None;
    }

    method RequestPermission(agent: string, id: Id, tx: Tx) returns (error: Option<Error>)
      modifies this`decisions
      ensures Follows(AskPermission(old(Value()), agent, id, tx), old(Value()), error, Value())
    {
      if agent == "" {
        return Some(Invalid);
      }
      var i := RunAt(runs, id);
      if i == |runs| {
        return Some(NotFound);
      }
      if runs[i].worker != agent || runs[i].status != Running {
        return Some(Conflict);
      }
      decisions := decisions + [Decision(tx.newDecision, Permission, "", Some(id), "")];
      return None;
    }

    method AnswerDecision(id: Id, answer: string, tx: Tx) returns (error: Option<Error>)
      modifies this
      ensures Follows(Answer(old(Value()), id, answer, tx), old(Value()), error, Value())
    {
      if answer == "" {
        return Some(Invalid);
      }
      var i := DecisionAt(decisions, id);
      if i == |decisions| {
        return Some(NotFound);
      }
      if project.archived || decisions[i].answer != "" {
        return Some(Conflict);
      }
      decisions := decisions[i := decisions[i].(answer := answer)];
      ActOn(decisions[i], tx);
      return None;
    }

    method RecordPipeline(name: string, status: CheckStatus, commit: string, tx: Tx)
      modifies this
      ensures Value() == RecordCheck(old(Value()), name, status, commit, tx)
    {
      var c := Check(tx.newCheck, name, status, commit, tx.now, tx.now);
      checks := Insert(checks, c, CheckBefore);
      CheckArrived(c, tx);
    }

    method UpdatePipeline(id: Id, status: CheckStatus, tx: Tx) returns (error: Option<Error>)
      modifies this
      ensures Follows(UpdateCheck(old(Value()), id, status, tx), old(Value()), error, Value())
    {
      var i := CheckAt(checks, id);
      if i == |checks| {
        return Some(NotFound);
      }
      checks := checks[i := checks[i].(status := status, updatedAt := tx.now)];
      CheckArrived(checks[i], tx);
      return None;
    }

    method CreateTaskRun(bot: Option<Id>, kind: Option<RunKind>, tx: Tx) returns (error: Option<Error>)
      modifies this`runs
      ensures Follows(RequestRun(old(Value()), bot, kind, tx), old(Value()), error, Value())
    {
      if kind == Some(Merge) {
        return Some(Invalid);
      }
      if project.archived {
        return Some(Conflict);
      }
      var chosen := bot;
      if bot == None && task.assignee.Some? {
        var a := MemberAt(members, task.assignee.value);
        if a < |members| && members[a].isBot {
          chosen := task.assignee;
        }
      }
      var m: Option<Member> := None;
      if chosen.Some? {
        var i := MemberAt(members, chosen.value);
        if i == |members| || !members[i].isBot {
          return Some(Invalid);
        }
        m := Some(members[i]);
      }
      if kind == Some(Review) && task.branch == "" {
        return Some(Invalid);
      }
      StartRun(m, kind, ByPeople, tx);
      return None;
    }

    method CreateHandoff(to: Id, autorun: bool, tx: Tx) returns (error: Option<Error>)
      modifies this`task, this`runs
      ensures Follows(HandTask(old(Value()), to, autorun, tx), old(Value()), error, Value())
    {
      if project.archived {
        return Some(Conflict);
      }
      var m := MemberAt(members, to);
      if m == |members| {
        return Some(Invalid);
      }
      Hand(members[m], autorun, ByPeople, tx);
      return None;
    }

    method SetStatus(status: TaskStatus) returns (error: Option<Error>)
      modifies this`task
      ensures Follows(SetTaskStatus(old(Value()), status), old(Value()), error, Value())
    {
      if project.archived {
        return Some(Conflict);
      }
      task := task.(status := status);
      return None;
    }

    /** What carries out an operation inside a transaction. */
    method CarryOut(op: Op, tx: Tx) returns (error: Option<Error>)
      modifies this
      ensures Follows(Perform(old(Value()), op, tx), old(Value()), error, Value())
    {
      error := None;
      match op
      case OpClaim(agent, bot, run, until) => error := ClaimRun(agent, bot, run, until, tx);
      case OpHeartbeat(agent, run, until) => error := ExtendLease(agent, run, until);
      case OpReport(agent, run, rep) => error := ReportRun(agent, run, rep, tx);
      case OpReap(picked) => ReapRuns(picked, tx);
      case OpRemoveMember(member) => error := Remove(member, tx);
      case OpAskPermission(agent, run) => error := RequestPermission(agent, run, tx);
      case OpAnswer(decision, answer) => error := AnswerDecision(decision, answer, tx);
      case OpRecordCheck(name, status, commit) => RecordPipeline(name, status, commit, tx);
      case OpUpdateCheck(check, status) => error := UpdatePipeline(check, status, tx);
      case OpRequestRun(bot, kind) => error := CreateTaskRun(bot, kind, tx);
      case OpHandTask(to, autorun) => error := CreateHandoff(to, autorun, tx);
      case OpSetTaskStatus(status) => error := SetStatus(status);
      case OpUpdateProject(p) => project := p;
      case OpJoin(m) => members := members + [m];
    }

    /** Runs any operation as one transaction: on a board that keeps the laws it leaves one that does, with every
        finished Run, every answer and the merge time still there; refused, it leaves the board untouched. */
    method Transact(op: Op, tx: Tx) returns (error: Option<Error>)
      requires Valid() && Fresh(Value(), tx)
      modifies this
      ensures Valid() && Kept(old(Value()), Value())
      ensures error.Some? ==> Value() == old(Value())
      ensures Value() == Step(old(Value()), op, tx)
    {
      ghost var s := Value();
      error := CarryOut(op, tx);
      StepIsFollowed(s, op, tx, error, Value());
      StepKeeps(s, op, tx);
      StepKeepsRows(s, op, tx);
    }
  }

  lemma StepIsFollowed(s: State, op: Op, tx: Tx, error: Option<Error>, v: State)
    requires Fresh(s, tx) && Follows(Perform(s, op, tx), s, error, v)
    ensures v == Step(s, op, tx) && (error.Some? ==> v == s)
  {}
}
