/** Agents waiting for work in one Server process: the queue's signal together with the claims it wakes. */
module Wakeup {
  import opened Lists
  import opened ClaimSteps
  import opened ClaimLaws
  import opened ClaimTheorems

  // --- the signal ---

  /** Channels are numbered as they are made; closing one wakes everybody who waits on it. */
  class Signal {
    var ch: nat
    var closed: set<nat>

    /** Exactly the channels handed out before the current one are closed. */
    ghost predicate Valid()
      reads this
    {
      forall c :: c in closed <==> 0 <= c < ch
    }

    constructor ()
      ensures Valid() && ch == 0
    {
      ch, closed := 0, {};
    }

    method Wait() returns (ready: nat)
      requires Valid()
      ensures ready == ch && ready !in closed
    {
      ready := ch;
    }

    method Notify()
      requires Valid()
      modifies this
      ensures Valid() && ch == old(ch) + 1
      ensures closed == old(closed) + {old(ch)}
    {
      closed := closed + {ch};
      ch := ch + 1;
    }
  }

  // --- agents waiting ---

  /** An agent in ClaimRun: it took a channel, is trying with transaction `tx`, or sleeps on the channel after an
      attempt that found nothing or was rolled back over the limit (`over`). `view` and `end` are history: what the
      attempt saw, and the state it ended in; so is `took`: what was queued and owed when it took the channel. */
  datatype Waiter =
    | HasChannel(ch: nat, bot: nat, took: Start)
    | Trying(ch: nat, bot: nat, took: Start, tx: nat, view: Db)
    | Asleep(ch: nat, bot: nat, took: Start, view: Db, end: Sys, over: bool)

  /** How many Runs there were, and which of them had their notify still to come. */
  datatype Start = Start(count: nat, owed: set<nat>)

  function Now(w: World): Start {
    Start(|w.sys.db.runs|, w.owed)
  }

  /** current: the signal's open channel. owed: Runs committed to the queue whose notify is still to come. */
  datatype World = World(sys: Sys, current: nat, owed: set<nat>, waiters: map<nat, Waiter>)

  /** Others is any step of the claim protocol, other agents' claims included. */
  datatype Move =
    | Others(step: Step)
    | Notifies(batch: set<nat>)
    | Waits(agent: nat, bot: nat)
    | Tries(agent: nat, tx: nat)
    | FindsNothing(agent: nat)
    | GoesOver(agent: nat)
    | Wakes(agent: nat)
    | GivesUp(agent: nat)

  function Go(w: World, move: Move): World {
    match move
    case Others(step) =>
      w.(sys := Next(w.sys, step), owed := w.owed + if step.Queues? then {|w.sys.db.runs|} else {})
    case Notifies(batch) =>
      if batch <= w.owed then w.(current := w.current + 1, owed := w.owed - batch) else w
    case Waits(a, bot) =>
      if a in w.waiters then w else w.(waiters := w.waiters[a := HasChannel(w.current, bot, Now(w))])
    case Tries(a, t) =>
      if a !in w.waiters || !w.waiters[a].HasChannel? || t in w.sys.open then w
      else
        var x := w.waiters[a];
        w.(sys := Look(w.sys, t, "", x.bot), waiters := w.waiters[a := Trying(x.ch, x.bot, x.took, t, w.sys.db)])
    case FindsNothing(a) =>
      if a !in w.waiters || !w.waiters[a].Trying? then w
      else
        var x := w.waiters[a];
        if x.tx in w.sys.open && w.sys.open[x.tx].Looked?
          && FirstInLine(w.sys, x.view, x.bot, |x.view.runs|) == None
        then w.(sys := Close(w.sys, x.tx), waiters := w.waiters[a := Asleep(x.ch, x.bot, x.took, x.view, w.sys, false)])
        else w
    case GoesOver(a) =>
      if a !in w.waiters || !w.waiters[a].Trying? then w
      else
        var x := w.waiters[a];
        if x.tx in w.sys.open && w.sys.open[x.tx].Counted? && OverLimit(w.sys.open[x.tx])
        then w.(sys := Close(w.sys, x.tx), waiters := w.waiters[a := Asleep(x.ch, x.bot, x.took, x.view, w.sys, true)])
        else w
    case Wakes(a) =>
      // the channel was closed: back to the top of the loop, with the channel current now
      if a in w.waiters && w.waiters[a].Asleep? && w.waiters[a].ch < w.current
      then w.(waiters := w.waiters[a := HasChannel(w.current, w.waiters[a].bot, Now(w))])
      else w
    case GivesUp(a) => w.(waiters := w.waiters - {a})
  }

  function Run(w: World, moves: seq<Move>): World {
    if moves == [] then w else Go(Run(w, moves[..|moves| - 1]), moves[|moves| - 1])
  }

  ghost predicate Quiet(w: World) {
    Initial(w.sys) && w.owed == {} && w.waiters == map[]
  }

  // --- the invariant ---

  /** now is what db became: rows keep their Project and Bot, and none goes back to pending. */
  ghost predicate Since(db: Db, now: Db) {
    |db.runs| <= |now.runs|
    && forall i :: 0 <= i < |db.runs| ==>
         && now.runs[i].project == db.runs[i].project && now.runs[i].bot == db.runs[i].bot
         && (now.runs[i].status == Pending ==> db.runs[i].status == Pending)
  }

  /** Every Run queued after the view was taken still has its notify to come, or the channel is closed. */
  ghost predicate Owed(w: World, ch: nat, view: Db) {
    ch == w.current ==> forall i :: |view.runs| <= i < |w.sys.db.runs| ==> i in w.owed
  }

  /** While the channel is open nothing was notified: owed is what it was, and every Run queued since. */
  ghost predicate NoneNotified(w: World, x: Waiter) {
    x.ch == w.current ==>
      && x.took.count <= |w.sys.db.runs|
      && forall i :: 0 <= i < |w.sys.db.runs| ==> (i in w.owed <==> i >= x.took.count || i in x.took.owed)
  }

  ghost predicate WaiterOk(w: World, x: Waiter) {
    && x.ch <= w.current && NoneNotified(w, x)
    && (!x.HasChannel? ==> Since(x.view, w.sys.db) && Owed(w, x.ch, x.view))
    && (x.Asleep? ==>
          && Since(x.view, x.end.db) && Since(x.end.db, w.sys.db)
          && (!x.over ==> FirstInLine(x.end, x.view, x.bot, |x.view.runs|) == None))
  }

  ghost predicate WaitersOk(w: World) {
    forall a :: a in w.waiters ==> WaiterOk(w, w.waiters[a])
  }

  /** A notify is owed for Runs that exist. */
  ghost predicate OwedOk(w: World) {
    forall i :: i in w.owed ==> i < |w.sys.db.runs|
  }

  lemma StepSince(s: Sys, step: Step)
    requires Inv(s)
    ensures Since(s.db, Next(s, step).db)
    ensures step.Queues? ==> |Next(s, step).db.runs| == |s.db.runs| + 1
    ensures !step.Queues? ==> |Next(s, step).db.runs| == |s.db.runs|
  {}

  lemma OthersKeep(w: World, step: Step)
    requires Inv(w.sys) && WaitersOk(w)
    ensures WaitersOk(Go(w, Others(step)))
  {
    StepSince(w.sys, step);
    var v := Go(w, Others(step));
    forall a | a in v.waiters ensures WaiterOk(v, v.waiters[a]) {
      assert WaiterOk(w, w.waiters[a]);
    }
  }

  lemma ClosesKeep(w: World, a: nat, over: bool)
    requires Inv(w.sys) && WaitersOk(w) && a in w.waiters && w.waiters[a].Trying?
    requires var x := w.waiters[a]; over || FirstInLine(w.sys, x.view, x.bot, |x.view.runs|) == None
    ensures
      var x := w.waiters[a];
      var v := w.(sys := Close(w.sys, x.tx),
                  waiters := w.waiters[a := Asleep(x.ch, x.bot, x.took, x.view, w.sys, over)]);
      Inv(v.sys) && WaitersOk(v)
  {
    StepKeeps(w.sys, Aborts(w.waiters[a].tx));
  }

  lemma NotifyKeeps(w: World, batch: set<nat>)
    requires WaitersOk(w)
    ensures WaitersOk(Go(w, Notifies(batch)))
  {
    var v := Go(w, Notifies(batch));
    forall a | a in v.waiters ensures WaiterOk(v, v.waiters[a]) {
      assert WaiterOk(w, w.waiters[a]);
    }
  }

  /** Taking the current channel, for the first time or after waking. */
  lemma TakesChannelKeeps(w: World, a: nat, bot: nat)
    requires WaitersOk(w)
    ensures WaitersOk(w.(waiters := w.waiters[a := HasChannel(w.current, bot, Now(w))]))
  {}

  lemma TryKeeps(w: World, a: nat, t: nat)
    requires Inv(w.sys) && WaitersOk(w)
    ensures Inv(Go(w, Tries(a, t)).sys) && WaitersOk(Go(w, Tries(a, t)))
  {
    if a in w.waiters && w.waiters[a].HasChannel? {
      StepKeeps(w.sys, Looks(t, "", w.waiters[a].bot));
    }
  }

  lemma MoveKeeps(w: World, move: Move)
    requires Inv(w.sys) && WaitersOk(w) && OwedOk(w)
    ensures Inv(Go(w, move).sys) && WaitersOk(Go(w, move)) && OwedOk(Go(w, move))
  {
    match move {
      case Others(step) => StepKeeps(w.sys, step); OthersKeep(w, step); StepSince(w.sys, step);
      case Notifies(batch) => NotifyKeeps(w, batch);
      case Waits(a, bot) => TakesChannelKeeps(w, a, bot);
      case Tries(a, t) => TryKeeps(w, a, t);
      case FindsNothing(a) =>
        if Go(w, move) != w { ClosesKeep(w, a, false); }
      case GoesOver(a) =>
        if Go(w, move) != w { ClosesKeep(w, a, true); }
      case Wakes(a) => if a in w.waiters { TakesChannelKeeps(w, a, w.waiters[a].bot); }
      case GivesUp(_) =>
    }
  }

  lemma {:induction false} AlwaysOk(w: World, moves: seq<Move>)
    requires Quiet(w)
    ensures Inv(Run(w, moves).sys) && WaitersOk(Run(w, moves)) && OwedOk(Run(w, moves))
  {
    if moves != [] {
      AlwaysOk(w, moves[..|moves| - 1]);
      MoveKeeps(Run(w, moves[..|moves| - 1]), moves[|moves| - 1]);
    }
  }

  // --- no lost wake-up ---

  /** The agent's last attempt could not have taken this row: another claim held it, its Project was archived, or
      its Project was at max_runs. */
  ghost predicate WasBlocked(x: Waiter, i: nat)
    requires x.Asleep?
  {
    i < |x.view.runs| &&
    var p := x.view.runs[i].project;
    || RowLocked(x.end, i)
    || p !in x.view.projects || x.view.projects[p].archived
    || (MaxRuns(x.view, p) > 0 && Load(x.view.runs, p) >= MaxRuns(x.view, p))
  }

  /** Main result: an agent that sleeps on a channel still open while there is a Run it could take has that Run's
      notify still to come, unless its last attempt saw the Run and found it blocked, or went over the limit. */
  lemma NoLostWakeup(w: World, moves: seq<Move>, a: nat, i: nat)
    requires Quiet(w)
    requires
      var v := Run(w, moves);
      a in v.waiters && v.waiters[a].Asleep? && v.waiters[a].ch == v.current
      && Takeable(v.sys, v.sys.db, v.waiters[a].bot, i)
    ensures var v := Run(w, moves); i in v.owed || v.waiters[a].over || WasBlocked(v.waiters[a], i)
  {
    AlwaysOk(w, moves);
    var v := Run(w, moves);
    var x := v.waiters[a];
    assert WaiterOk(v, x);
    if i < |x.view.runs| && !x.over {
      TakesTheFirst(x.end, x.view, x.bot, |x.view.runs|);
      assert !Takeable(x.end, x.view, x.bot, i);
    }
  }

  /** Exactly which Runs nothing will wake a sleeper for: those whose notify had been sent before it took its channel.
      One it could take now was then blocked when it tried, or its own attempt went over the limit. */
  lemma NoWakeupLeftExactlyWhen(w: World, moves: seq<Move>, a: nat, i: nat)
    requires Quiet(w)
    requires
      var v := Run(w, moves);
      a in v.waiters && v.waiters[a].Asleep? && v.waiters[a].ch == v.current && i < |v.sys.db.runs|
    ensures
      var v := Run(w, moves);
      var x := v.waiters[a];
      && (i !in v.owed <==> i < x.took.count && i !in x.took.owed)
      && (i !in v.owed && Takeable(v.sys, v.sys.db, x.bot, i) ==> x.over || WasBlocked(x, i))
  {
    AlwaysOk(w, moves);
    assert WaiterOk(Run(w, moves), Run(w, moves).waiters[a]);
    if Takeable(Run(w, moves).sys, Run(w, moves).sys.db, Run(w, moves).waiters[a].bot, i) {
      NoLostWakeup(w, moves, a, i);
    }
  }

  /** Every Run queued after the attempt: the sleeper's channel is closed or the notify is still to come. */
  lemma QueuedAfterIsOwed(w: World, moves: seq<Move>, a: nat, i: nat)
    requires Quiet(w)
    requires
      var v := Run(w, moves);
      a in v.waiters && v.waiters[a].Asleep? && |v.waiters[a].view.runs| <= i < |v.sys.db.runs|
    ensures var v := Run(w, moves); v.waiters[a].ch < v.current || i in v.owed
  {
    AlwaysOk(w, moves);
    assert WaiterOk(Run(w, moves), Run(w, moves).waiters[a]);
  }

  /** Whoever waits gets the channel that is open now. A sleeper wakes exactly when its channel was closed, and then
      takes the open one. */
  lemma TakesTheOpenChannel(w: World, a: nat, bot: nat)
    ensures a !in w.waiters ==> Go(w, Waits(a, bot)).waiters == w.waiters[a := HasChannel(w.current, bot, Now(w))]
    ensures a in w.waiters && w.waiters[a].Asleep? ==>
      Go(w, Wakes(a)).waiters ==
        if w.waiters[a].ch < w.current then w.waiters[a := HasChannel(w.current, w.waiters[a].bot, Now(w))]
           else w.waiters
  {}

  // --- what nothing wakes ---

  /** Two Runs for Bot 7 in a Project that runs one at a time; both were announced long ago. */
  const ROW := Row(0, Some(7), 0, Pending, None)
  const PROJECTS := map[0 := Project(1, false)]
  const DB := Db([ROW, ROW], PROJECTS)
  const TAKEN := Db([Given(ROW, "x"), ROW], PROJECTS)
  const FREED := Db([Given(ROW, "x").(status := Done), ROW], PROJECTS)

  /** One agent runs the first Run, another finds the Project full and sleeps, and the first Run ends. */
  const MOVES := [
    Others(Looks(0, "x", 7)), Others(Takes(0)), Others(Recounts(0)), Others(Finishes(0)),
    Waits(1, 7), Tries(1, 1), FindsNothing(1), Others(Ends(0))]

  const GIVEN := [(0, "x")]
  const TOOK := Start(2, {})
  const S0 := World(Sys(DB, map[], []), 0, {}, map[])
  const S1 := S0.(sys := Sys(DB, map[0 := Looked("x", 7, DB)], []))
  const S2 := S0.(sys := Sys(DB, map[0 := Took("x", 7, DB, 0)], []))
  const S3 := S0.(sys := Sys(DB, map[0 := Counted("x", 7, DB, 0, 1, 1)], []))
  const S4 := S0.(sys := Sys(TAKEN, map[], GIVEN))
  const S5 := S4.(waiters := map[1 := HasChannel(0, 7, TOOK)])
  const S6 := S4.(sys := Sys(TAKEN, map[1 := Looked("", 7, TAKEN)], GIVEN),
      waiters := map[1 := Trying(0, 7, TOOK, 1, TAKEN)])
  const S7 := S4.(waiters := map[1 := Asleep(0, 7, TOOK, TAKEN, S6.sys, false)])
  const S8 := S7.(sys := Sys(FREED, map[], GIVEN))

  lemma OneMore(w: World, moves: seq<Move>, k: nat, v: World, u: World)
    requires k < |moves| && Run(w, moves[..k]) == v && Go(v, moves[k]) == u
    ensures Run(w, moves[..k + 1]) == u
  {
    assert moves[..k + 1][..k] == moves[..k];
  }

  lemma LoadOfTwo(a: Row, b: Row, project: nat)
    ensures Load([a, b], project) == One(project, a) + One(project, b)
  {
    LoadAppend([], a, project);
    LoadAppend([a], b, project);
    assert [] + [a] == [a];
    assert [a] + [b] == [a, b];
  }

  lemma Step1()
    ensures Go(S0, MOVES[0]) == S1
  {}

  lemma Step2()
    ensures Go(S1, MOVES[1]) == S2
  {
    LoadOfTwo(ROW, ROW, 0);
    assert FirstInLine(S1.sys, DB, 7, 0) == None;
    assert FirstInLine(S1.sys, DB, 7, 1) == Some(0);
    assert FirstInLine(S1.sys, DB, 7, 2) == Some(0);
  }

  lemma Step3()
    ensures Go(S2, MOVES[2]) == S3
  {
    LoadOfTwo(Given(ROW, "x"), ROW, 0);
    assert DB.runs[0 := Given(ROW, "x")] == TAKEN.runs;
  }

  lemma Step4()
    ensures Go(S3, MOVES[3]) == S4
  {
    assert DB.runs[0 := Given(ROW, "x")] == TAKEN.runs;
  }

  lemma Step5()
    ensures Go(S4, MOVES[4]) == S5
  {}

  lemma Step6()
    ensures Go(S5, MOVES[5]) == S6
  {}

  lemma Step7()
    ensures Go(S6, MOVES[6]) == S7
  {
    LoadOfTwo(Given(ROW, "x"), ROW, 0);
    assert FirstInLine(S6.sys, TAKEN, 7, 0) == None;
    assert FirstInLine(S6.sys, TAKEN, 7, 1) == None;
    assert FirstInLine(S6.sys, TAKEN, 7, 2) == None;
  }

  lemma Step8()
    ensures Go(S7, MOVES[7]) == S8
  {
    assert TAKEN.runs[0 := FREED.runs[0]] == FREED.runs;
  }

  lemma FirstHalf()
    ensures Run(S0, MOVES[..4]) == S4
  {
    Step1();
    OneMore(S0, MOVES, 0, S0, S1);
    Step2();
    OneMore(S0, MOVES, 1, S1, S2);
    Step3();
    OneMore(S0, MOVES, 2, S2, S3);
    Step4();
    OneMore(S0, MOVES, 3, S3, S4);
  }

  lemma SecondHalf()
    ensures Run(S0, MOVES[..8]) == S8
  {
    FirstHalf();
    Step5();
    OneMore(S0, MOVES, 4, S4, S5);
    Step6();
    OneMore(S0, MOVES, 5, S5, S6);
    Step7();
    OneMore(S0, MOVES, 6, S6, S7);
    Step8();
    OneMore(S0, MOVES, 7, S7, S8);
  }

  /** The second Run can be taken, the sleeper's channel is open, and no notify is to come: a slot that a finished
      Run frees wakes nobody. */
  lemma FreedSlotWakesNobody()
    ensures Quiet(S0) && Run(S0, MOVES) == S8
    ensures S8.waiters[1].ch == S8.current && S8.owed == {}
    ensures Takeable(S8.sys, S8.sys.db, S8.waiters[1].bot, 1)
  {
    SecondHalf();
    assert MOVES[..8] == MOVES;
    LoadOfTwo(FREED.runs[0], ROW, 0);
  }
}
