/** One scheduled Routine fired by several Servers, each from a copy of the row it read before. */
module Routines {
  import opened Lists

  /** The shortest schedule there is, in seconds. */
  const SHORTEST: nat := 60

  type Instant = nat

  datatype Routine = Routine(lastRun: Option<Instant>, lastTask: Option<nat>, interval: nat, enabled: bool)

  /** History of a firing: when, by schedule or by hand, what it moved last_run_at from, and the row's interval and
      whether it was enabled when it was read. */
  datatype Firing = Firing(at: Instant, scheduled: bool, prev: Option<Instant>, interval: nat, enabled: bool)

  /** A copy of the row somebody read: listed by a tick, to be fired, or to be edited. `since` is when it was found due,
      or read by hand. */
  datatype Copy = Listed(row: Routine) | ToFire(row: Routine, scheduled: bool, since: Instant) | ToEdit(row: Routine)

  /** open[i] says whether the Routine's i-th Task is unfinished. */
  datatype World = World(row: Routine, open: seq<bool>, now: Instant, copies: map<nat, Copy>, firings: seq<Firing>)

  datatype Step =
    | Clock(to: Instant)
    | Lists(who: nat)            // a tick reads the enabled rows, then the clock
    | FindsDue(who: nat)
    | ReadsByHand(who: nat)
    | Fires(who: nat)
    | ReadsToEdit(who: nat)
    | Edits(who: nat, interval: nat, enabled: bool)
    | Finishes(task: nat)

  predicate Due(r: Routine, now: Instant) {
    r.enabled && (r.lastRun.Some? ==> now >= r.lastRun.value + r.interval)
  }

  predicate Unfinished(w: World, task: Option<nat>) {
    task.Some? && task.value < |w.open| && w.open[task.value]
  }

  /** The compare-and-set: only while last_run_at is what the copy says. */
  predicate CanClaim(w: World, r: Routine) {
    w.row.lastRun == r.lastRun
  }

  /** Fires from copy r: skips while the copy's Task is unfinished, and otherwise opens a new Task and writes the
      copy back with it. */
  function Fire(w: World, r: Routine, scheduled: bool): World {
    if !CanClaim(w, r) then w
    else
      var v := w.(firings := w.firings + [Firing(w.now, scheduled, r.lastRun, r.interval, r.enabled)]);
      if Unfinished(w, r.lastTask) then v.(row := w.row.(lastRun := Some(w.now)))
      else v.(row := r.(lastRun := Some(w.now), lastTask := Some(|w.open|)), open := w.open + [true])
  }

  /** Writes name, schedule and so on from the copy, last_task_id included. */
  function Edit(w: World, r: Routine, interval: nat, enabled: bool): World {
    w.(row := r.(lastRun := w.row.lastRun, interval := interval, enabled := enabled))
  }

  function Next(w: World, step: Step): World {
    match step
    case Clock(to) => if to >= w.now then w.(now := to) else w
    case Lists(s) => if w.row.enabled then w.(copies := w.copies[s := Listed(w.row)]) else w
    case FindsDue(s) =>
      if s in w.copies && w.copies[s].Listed? && Due(w.copies[s].row, w.now)
      then w.(copies := w.copies[s := ToFire(w.copies[s].row, true, w.now)])
      else w
    case ReadsByHand(s) => w.(copies := w.copies[s := ToFire(w.row, false, w.now)])
    case Fires(s) =>
      if s in w.copies && w.copies[s].ToFire?
      then Fire(w, w.copies[s].row, w.copies[s].scheduled).(copies := w.copies - {s})
      else w
    case ReadsToEdit(s) => w.(copies := w.copies[s := ToEdit(w.row)])
    case Edits(s, interval, enabled) =>
      if s in w.copies && w.copies[s].ToEdit? && interval >= SHORTEST
      then Edit(w, w.copies[s].row, interval, enabled).(copies := w.copies - {s})
      else w
    case Finishes(i) => if i < |w.open| then w.(open := w.open[i := false]) else w
  }

  function After(w: World, script: seq<Step>): World {
    if script == [] then w else Next(After(w, script[..|script| - 1]), script[|script| - 1])
  }

  predicate Created(w: World) {
    && w.row.lastRun == None && w.row.lastTask == None && w.row.interval >= SHORTEST
    && w.open == [] && w.copies == map[] && w.firings == []
  }

  // --- the interval between firings ---

  /** The k-th firing moved last_run_at from the one before it, by the schedule not before its interval was over. */
  predicate Follows(fs: seq<Firing>, k: nat)
    requires k < |fs|
  {
    (fs[k].scheduled ==> fs[k].enabled) &&
    if k == 0 then fs[k].prev == None
    else
      && fs[k].prev == Some(fs[k - 1].at)
      && (fs[k].scheduled ==> fs[k].at >= fs[k - 1].at + fs[k].interval)
  }

  ghost predicate Spaced(w: World) {
    && (forall k :: 0 <= k < |w.firings| ==> Follows(w.firings, k))
    && w.row.lastRun == (if w.firings == [] then None else Some(w.firings[|w.firings| - 1].at))
    && (forall k :: 0 <= k < |w.firings| ==> w.firings[k].at <= w.now)
    && (forall s :: s in w.copies && w.copies[s].ToFire? ==>
          w.copies[s].since <= w.now && (w.copies[s].scheduled ==> Due(w.copies[s].row, w.copies[s].since)))
    && w.row.interval >= SHORTEST
    && (forall s :: s in w.copies ==> w.copies[s].row.interval >= SHORTEST)
  }

  lemma {:induction false} AlwaysSpaced(w: World, script: seq<Step>)
    requires Created(w)
    ensures Spaced(After(w, script))
  {
    if script != [] {
      AlwaysSpaced(w, script[..|script| - 1]);
      StepSpaced(After(w, script[..|script| - 1]), script[|script| - 1]);
    }
  }

  lemma FireSpaced(w: World, s: nat)
    requires Spaced(w) && s in w.copies && w.copies[s].ToFire?
    ensures Spaced(Next(w, Fires(s)))
  {
    var c := w.copies[s];
    var v := Next(w, Fires(s));
    if CanClaim(w, c.row) {
      var n := |w.firings|;
      assert v.firings == w.firings + [Firing(w.now, c.scheduled, c.row.lastRun, c.row.interval, c.row.enabled)];
      forall k | 0 <= k < |v.firings| ensures Follows(v.firings, k) {
        if k < n {
          assert Follows(w.firings, k);
        }
      }
    }
  }

  lemma StepSpaced(w: World, step: Step)
    requires Spaced(w)
    ensures Spaced(Next(w, step))
  {
    match step {
      case Fires(s) => if s in w.copies && w.copies[s].ToFire? { FireSpaced(w, s); }
      case Clock(_) =>
      case Lists(_) =>
      case FindsDue(_) =>
      case ReadsByHand(_) =>
      case ReadsToEdit(_) =>
      case Edits(_, _, _) =>
      case Finishes(_) =>
    }
  }

  /** With any number of Servers on one clock that never goes back, each firing follows the one before it, and a
      scheduled one only of a row read as enabled, never sooner than the interval it read. */
  lemma NeverTooSoon(w: World, script: seq<Step>, k: nat)
    requires Created(w) && k < |After(w, script).firings|
    ensures var fs := After(w, script).firings;
      && (fs[k].scheduled ==> fs[k].enabled)
      && (k == 0 ==> fs[k].prev == None)
      && (k > 0 ==>
            && fs[k].prev == Some(fs[k - 1].at)
            && (fs[k].scheduled ==> fs[k].at >= fs[k - 1].at + fs[k].interval))
  {
    AlwaysSpaced(w, script);
    assert Follows(After(w, script).firings, k);
  }

  // --- one tick with nobody in between ---

  function Tick(w: World, who: nat): World {
    Next(Next(Next(w, Lists(who)), FindsDue(who)), Fires(who))
  }

  /** A tick fires exactly the enabled Routines that never fired or whose interval is over. It opens a Task exactly
      when the last one is finished or there is none. */
  lemma TickFiresExactlyWhen(w: World, who: nat)
    requires who !in w.copies
    ensures var v := Tick(w, who);
      if w.row.enabled && (w.row.lastRun.None? || w.row.lastRun.value + w.row.interval <= w.now) then
        && v.firings == w.firings + [Firing(w.now, true, w.row.lastRun, w.row.interval, true)]
        && v.row.lastRun == Some(w.now)
        && if w.row.lastTask.Some? && w.row.lastTask.value < |w.open| && w.open[w.row.lastTask.value]
           then v.open == w.open && v.row.lastTask == w.row.lastTask
           else v.open == w.open + [true] && v.row.lastTask == Some(|w.open|)
      else v.firings == w.firings && v.open == w.open && v.row == w.row
  {}

  /** Fired by hand a Routine fires whatever its schedule and switch say, and skips like any firing while its last Task
      is unfinished. */
  lemma HandFiresAnyway(w: World, who: nat)
    ensures var v := Next(Next(w, ReadsByHand(who)), Fires(who));
      && |v.firings| == |w.firings| + 1 && v.row.lastRun == Some(w.now)
      && v.open == if Unfinished(w, w.row.lastTask) then w.open else w.open + [true]
  {}

  /** An edit that is accepted decides what the next tick does, and forgets no firing. */
  lemma EditDecidesNextTick(w: World, s: nat, interval: nat, enabled: bool, who: nat)
    requires s in w.copies && w.copies[s].ToEdit? && interval >= SHORTEST && who !in w.copies
    ensures var v := Next(w, Edits(s, interval, enabled));
      && v.row.lastRun == w.row.lastRun && v.firings == w.firings
      && (|Tick(v, who).firings| > |w.firings| <==>
            enabled && (w.row.lastRun.None? || w.row.lastRun.value + interval <= w.now))
  {
    TickFiresExactlyWhen(Next(w, Edits(s, interval, enabled)), who);
  }

  // --- at most one unfinished Task ---

  predicate OneOpen(w: World) {
    forall i, j :: 0 <= i < j < |w.open| ==> !(w.open[i] && w.open[j])
  }

  /** A firing that claims, finds the Task its copy names finished or none, and opens a Task while another is open. */
  predicate OpensSecond(w: World, step: Step) {
    && step.Fires? && step.who in w.copies && w.copies[step.who].ToFire?
    && CanClaim(w, w.copies[step.who].row) && !Unfinished(w, w.copies[step.who].row.lastTask)
    && exists i :: 0 <= i < |w.open| && w.open[i]
  }

  lemma StepOpens(w: World, step: Step)
    requires OneOpen(w)
    ensures OneOpen(Next(w, step)) <==> !OpensSecond(w, step)
  {
    var v := Next(w, step);
    if OpensSecond(w, step) {
      var i :| 0 <= i < |w.open| && w.open[i];
      assert v.open[i] && v.open[|w.open|];
    }
  }

  lemma {:induction false} OneOpenUntil(w: World, script: seq<Step>, n: nat)
    requires Created(w) && n <= |script|
    requires forall k :: 0 <= k < n ==> !OpensSecond(After(w, script[..k]), script[k])
    ensures OneOpen(After(w, script[..n]))
  {
    if n > 0 {
      OneOpenUntil(w, script, n - 1);
      AfterOneMore(w, script, n - 1);
      StepOpens(After(w, script[..n - 1]), script[n - 1]);
    }
  }

  /** Main result: a Routine never has two unfinished Tasks if and only if no firing claims with a copy whose Task is
      not unfinished while some Task is. */
  lemma OneUnfinishedExactlyWhen(w: World, script: seq<Step>)
    requires Created(w)
    ensures (forall n :: 0 <= n <= |script| ==> OneOpen(After(w, script[..n])))
       <==> (forall n :: 0 <= n < |script| ==> !OpensSecond(After(w, script[..n]), script[n]))
  {
    if forall n :: 0 <= n < |script| ==> !OpensSecond(After(w, script[..n]), script[n]) {
      forall n | 0 <= n <= |script| ensures OneOpen(After(w, script[..n])) {
        OneOpenUntil(w, script, n);
      }
    }
    if forall n :: 0 <= n <= |script| ==> OneOpen(After(w, script[..n])) {
      forall n | 0 <= n < |script| ensures !OpensSecond(After(w, script[..n]), script[n]) {
        AfterOneMore(w, script, n);
        assert OneOpen(After(w, script[..n])) && OneOpen(After(w, script[..n + 1]));
        StepOpens(After(w, script[..n]), script[n]);
      }
    }
  }

  // --- the row names the unfinished Task ---

  /** Only the Task the row names can be unfinished. */
  ghost predicate Named(w: World) {
    && (w.row.lastTask.Some? ==> w.row.lastTask.value < |w.open|)
    && forall i :: 0 <= i < |w.open| && w.open[i] ==> w.row.lastTask == Some(i)
  }

  /** The step writes a last Task other than the unfinished one the row names. */
  predicate StaleWrite(w: World, step: Step) {
    Unfinished(w, w.row.lastTask) &&
    match step
    case Fires(s) =>
      && s in w.copies && w.copies[s].ToFire?
      && CanClaim(w, w.copies[s].row) && w.copies[s].row.lastTask != w.row.lastTask
    case Edits(s, interval, _) =>
      && s in w.copies && w.copies[s].ToEdit? && interval >= SHORTEST
      && w.copies[s].row.lastTask != w.row.lastTask
    case _ => false
  }

  /** Copies name Tasks that exist. */
  ghost predicate CopiesOk(w: World) {
    forall s :: s in w.copies && w.copies[s].row.lastTask.Some? ==> w.copies[s].row.lastTask.value < |w.open|
  }

  lemma StepNames(w: World, step: Step)
    requires Named(w) && CopiesOk(w)
    ensures CopiesOk(Next(w, step))
    ensures Named(Next(w, step)) <==> !StaleWrite(w, step)
  {
    var v := Next(w, step);
    if StaleWrite(w, step) {
      var i := w.row.lastTask.value;
      assert v.open[i] && v.row.lastTask != Some(i);
    }
  }

  lemma AfterOneMore(w: World, script: seq<Step>, n: nat)
    requires n < |script|
    ensures After(w, script[..n + 1]) == Next(After(w, script[..n]), script[n])
  {
    assert script[..n + 1][..n] == script[..n];
  }

  lemma {:induction false} NamedWhileNotStale(w: World, script: seq<Step>, n: nat)
    requires Created(w) && n <= |script|
    requires forall k :: 0 <= k < n ==> !StaleWrite(After(w, script[..k]), script[k])
    ensures Named(After(w, script[..n])) && CopiesOk(After(w, script[..n]))
  {
    if n > 0 {
      NamedWhileNotStale(w, script, n - 1);
      AfterOneMore(w, script, n - 1);
      StepNames(After(w, script[..n - 1]), script[n - 1]);
    }
  }

  /** While no stale copy is written over an unfinished Task, a Routine has at most one unfinished Task. */
  lemma OneUnfinishedTask(w: World, script: seq<Step>, i: nat, j: nat)
    requires Created(w)
    requires forall n :: 0 <= n < |script| ==> !StaleWrite(After(w, script[..n]), script[n])
    requires var v := After(w, script); i < |v.open| && j < |v.open| && v.open[i] && v.open[j]
    ensures i == j
  {
    assert script[..|script|] == script;
    NamedWhileNotStale(w, script, |script|);
  }

  // --- what keeps copies from going stale ---

  /** Firings happen at later and later instants, and nobody fires between another's reading the row and editing it. */
  ghost predicate Disciplined(w: World, step: Step) {
    && (step.Fires? && step.who in w.copies && CanClaim(w, w.copies[step.who].row) && w.row.lastRun.Some? ==>
          w.now > w.row.lastRun.value)
    && (step.Edits? && step.who in w.copies ==> w.copies[step.who].row.lastTask == w.row.lastTask)
  }

  predicate NoLater(a: Option<Instant>, b: Option<Instant>) {
    a.Some? ==> b.Some? && a.value <= b.value
  }

  /** A copy that can still claim names the Task the row names. */
  ghost predicate CopiesAgree(w: World) {
    forall s :: s in w.copies && !w.copies[s].ToEdit? ==>
      && NoLater(w.copies[s].row.lastRun, w.row.lastRun)
      && (w.copies[s].row.lastRun == w.row.lastRun ==> w.copies[s].row.lastTask == w.row.lastTask)
  }

  lemma DisciplineKeeps(w: World, step: Step)
    requires CopiesAgree(w) && Disciplined(w, step)
    ensures !StaleWrite(w, step) && CopiesAgree(Next(w, step))
  {}

  lemma {:induction false} DisciplineAlwaysKeeps(w: World, script: seq<Step>, n: nat)
    requires Created(w) && n <= |script|
    requires forall k :: 0 <= k < n ==> Disciplined(After(w, script[..k]), script[k])
    ensures CopiesAgree(After(w, script[..n]))
  {
    if n > 0 {
      DisciplineAlwaysKeeps(w, script, n - 1);
      assert script[..n][..n - 1] == script[..n - 1];
      DisciplineKeeps(After(w, script[..n - 1]), script[n - 1]);
    }
  }

  /** Main result: with a clock that moves between firings and no firing in the middle of an edit, a Routine has at
      most one unfinished Task, however many Servers tick. */
  lemma AtMostOneUnfinished(w: World, script: seq<Step>, i: nat, j: nat)
    requires Created(w)
    requires forall n :: 0 <= n < |script| ==> Disciplined(After(w, script[..n]), script[n])
    requires var v := After(w, script); i < |v.open| && j < |v.open| && v.open[i] && v.open[j]
    ensures i == j
  {
    forall n | 0 <= n < |script| ensures !StaleWrite(After(w, script[..n]), script[n]) {
      DisciplineAlwaysKeeps(w, script, n);
      DisciplineKeeps(After(w, script[..n]), script[n]);
    }
    OneUnfinishedTask(w, script, i, j);
  }

  /** A scheduled firing always happens at a later instant than the last one. */
  lemma ScheduledFiringsMoveOn(w: World, script: seq<Step>, s: nat)
    requires Created(w)
    requires var v := After(w, script); s in v.copies && v.copies[s].ToFire? && v.copies[s].scheduled
    ensures Disciplined(After(w, script), Fires(s))
  {
    AlwaysSpaced(w, script);
  }

  // --- and what happens without ---

  const NEW := World(Routine(None, None, 60, true), [], 100, map[], [])

  lemma OneMore(w: World, script: seq<Step>, k: nat, v: World)
    requires k < |script| && After(w, script[..k]) == v
    ensures After(w, script[..k + 1]) == Next(v, script[k])
  {
    assert script[..k + 1][..k] == script[..k];
  }

  /** An edit read before a firing and written after it makes the row forget the new Task. */
  const LATE_EDIT :=
    [ReadsToEdit(1), Lists(2), FindsDue(2), Fires(2), Edits(1, 60, true), Clock(200), Lists(3), FindsDue(3), Fires(3)]

  const FIRED := Firing(100, true, None, 60, true)
  const E1 := NEW.(copies := map[1 := ToEdit(NEW.row), 2 := Listed(NEW.row)])
  const E2 := NEW.(copies := map[1 := ToEdit(NEW.row), 2 := ToFire(NEW.row, true, 100)])
  const E3 := NEW.(row := Routine(Some(100), Some(0), 60, true), open := [true],
                  copies := map[1 := ToEdit(NEW.row)], firings := [FIRED])
  const E4 := E3.(row := Routine(Some(100), None, 60, true), copies := map[])
  const E5 := E4.(now := 200, copies := map[3 := Listed(E4.row)])
  const E6 := E4.(now := 200, copies := map[3 := ToFire(E4.row, true, 200)])

  lemma TheTaskIsOpened()
    ensures After(NEW, LATE_EDIT[..4]) == E3
  {
    OneMore(NEW, LATE_EDIT, 0, NEW);
    OneMore(NEW, LATE_EDIT, 1, NEW.(copies := map[1 := ToEdit(NEW.row)]));
    assert map[1 := ToEdit(NEW.row)][2 := Listed(NEW.row)] == E1.copies;
    OneMore(NEW, LATE_EDIT, 2, E1);
    assert E1.copies[2 := ToFire(NEW.row, true, 100)] == E2.copies;
    OneMore(NEW, LATE_EDIT, 3, E2);
    assert E2.copies - {2} == E3.copies;
  }

  lemma TheTaskIsForgotten()
    ensures After(NEW, LATE_EDIT[..5]) == E4
  {
    TheTaskIsOpened();
    OneMore(NEW, LATE_EDIT, 4, E3);
    assert E3.copies - {1} == map[];
  }

  lemma LateEditForgetsTheTask()
    ensures Created(NEW)
    ensures After(NEW, LATE_EDIT).open == [true, true]
  {
    TheTaskIsForgotten();
    OneMore(NEW, LATE_EDIT, 5, E4);
    OneMore(NEW, LATE_EDIT, 6, E4.(now := 200));
    assert E5.copies[3 := ToFire(E4.row, true, 200)] == E6.copies;
    OneMore(NEW, LATE_EDIT, 7, E5);
    OneMore(NEW, LATE_EDIT, 8, E6);
    assert LATE_EDIT[..9] == LATE_EDIT;
  }

  /** Firing by hand twice at one instant: the compare-and-set of a third firing cannot tell. */
  const SAME_INSTANT := [ReadsByHand(1), Fires(1), Finishes(0), ReadsByHand(2), ReadsByHand(3), Fires(2), Fires(3)]

  const BY_HAND := Firing(100, false, None, 60, true)
  const H3 := NEW.(row := Routine(Some(100), Some(0), 60, true), open := [false], firings := [BY_HAND])
  const COPY := ToFire(H3.row, false, 100)
  const H5 := H3.(copies := map[2 := COPY, 3 := COPY])
  const H6 := H3.(row := Routine(Some(100), Some(1), 60, true), open := [false, true], copies := map[3 := COPY],
                  firings := [BY_HAND, Firing(100, false, Some(100), 60, true)])

  lemma TheFirstIsDone()
    ensures After(NEW, SAME_INSTANT[..3]) == H3
  {
    var read := NEW.(copies := map[1 := ToFire(NEW.row, false, 100)]);
    OneMore(NEW, SAME_INSTANT, 0, NEW);
    OneMore(NEW, SAME_INSTANT, 1, read);
    assert read.copies - {1} == map[];
    OneMore(NEW, SAME_INSTANT, 2, H3.(open := [true]));
  }

  lemma OneInstantFoolsTheCompare()
    ensures After(NEW, SAME_INSTANT).open == [false, true, true]
  {
    TheFirstIsDone();
    OneMore(NEW, SAME_INSTANT, 3, H3);
    OneMore(NEW, SAME_INSTANT, 4, H3.(copies := map[2 := COPY]));
    assert map[2 := COPY][3 := COPY] == H5.copies;
    OneMore(NEW, SAME_INSTANT, 5, H5);
    assert H5.copies - {2} == H6.copies;
    OneMore(NEW, SAME_INSTANT, 6, H6);
    assert SAME_INSTANT[..7] == SAME_INSTANT;
  }

  // --- the row as an object ---

  class Table {
    var row: Routine
    var open: seq<bool>

    constructor (interval: nat, enabled: bool)
      ensures row == Routine(None, None, interval, enabled) && open == []
    {
      row, open := Routine(None, None, interval, enabled), [];
    }

    /** Moves last_run_at from prev to at if nobody fired since prev. */
    method ClaimRoutine(prev: Option<Instant>, at: Instant) returns (claimed: bool)
      modifies this`row
      ensures claimed <==> old(row).lastRun == prev
      ensures row == if claimed then old(row).(lastRun := Some(at)) else old(row)
    {
      claimed := row.lastRun == prev;
      if claimed {
        row := row.(lastRun := Some(at));
      }
    }

    /** Writes everything but last_run_at. */
    method UpdateRoutine(r: Routine)
      modifies this`row
      ensures row == r.(lastRun := old(row).lastRun)
    {
      row := r.(lastRun := row.lastRun);
    }

    method FireFrom(r: Routine, scheduled: bool, now: Instant, ghost w: World) returns (fired: bool)
      requires row == w.row && open == w.open && now == w.now
      modifies this
      ensures row == Fire(w, r, scheduled).row && open == Fire(w, r, scheduled).open
      ensures fired <==> CanClaim(w, r)
    {
      fired := ClaimRoutine(r.lastRun, now);
      if !fired {
        return;
      }
      if r.lastTask.Some? && r.lastTask.value < |open| && open[r.lastTask.value] {
        return;
      }
      var task := |open|;
      open := open + [true];
      UpdateRoutine(r.(lastTask := Some(task)));
    }
  }
}
