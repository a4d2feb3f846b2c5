/** What a dropped frame means once the connection is closed and the browser comes back with its cursor. */
module HubReconnect {
  import opened Lists
  import opened HubSteps
  import opened HubLaws
  import opened HubArrival
  import opened HubOrder
  import Live

  /** The connection ended and a new one is open: the database and what is still to be published are as they were. */
  function Reconnected(s: Sys): Sys {
    Sys(s.log, s.waiting, {}, {}, Conn(map[], [], false), Idle)
  }

  /** The browser's cursor when it subscribes: none for live events only. */
  function CursorOf(after: int): Option<Cursor> { if after < 0 then None else Some(after) }

  function AskFrom(c: Option<Cursor>): int { if c.Some? then c.value else -1 }

  /** The browser's high-water mark, from which it asks next. */
  function Mark(c: Conn, t: Topic): Option<Cursor>
    requires t in c.subs
  {
    Live.CursorAfter(CursorOf(c.subs[t].after), Arrived(c, t))
  }

  predicate Positive(frames: seq<Cursor>) { forall k :: k in frames ==> k > 0 }

  lemma {:induction false} MarkIsHighest(c: Option<Cursor>, frames: seq<Cursor>)
    requires Positive(frames) && (c.Some? ==> c.value >= 0)
    ensures var m := Live.CursorAfter(c, frames);
      && (m.None? <==> c.None? && frames == [])
      && (m.Some? ==> m.value >= 0 && (m == c || m.value in frames) && (forall k :: k in frames ==> k <= m.value))
      && (c.Some? ==> m.value >= c.value)
    decreases |frames|
  {
    if frames != [] {
      assert frames[0] in frames && forall k :: k in frames <==> k == frames[0] || k in frames[1..];
      MarkIsHighest(if c.None? || frames[0] > c.value then Some(frames[0]) else c, frames[1..]);
    }
  }

  lemma {:induction false} HandledArrived(c: Option<Cursor>, frames: seq<Cursor>, k: Cursor)
    requires k in Live.Handled(c, frames)
    ensures k in frames
    decreases |frames|
  {
    if frames != [] && k != frames[0] {
      var x := frames[0];
      HandledArrived(if x > 0 && c.Some? && x <= c.value then c else if x > 0 then Some(x) else c, frames[1..], k);
    }
  }

  lemma HandledAboveMark(mark: Cursor, frames: seq<Cursor>, k: Cursor)
    requires k > 0 && k in Live.Handled(Some(mark), frames)
    ensures k > mark
  {
    Live.NothingTwice(Some(mark), frames);
  }

  /** After a drop the event is never sent by this subscription, so it does not arrive. */
  lemma DroppedNeverArrives(r: Sys, later: seq<Step>, t: Topic, j: Cursor)
    requires AboutToRead(r, t) && StaysOn(later, t) && DroppedAlong(Next(r, ReadPage), later, t, j)
    ensures var end := After(Next(r, ReadPage), later);
      && t in end.conn.subs && end.conn.subs[t].after == r.conn.subs[t].after && Event(t, j) in end.log
      && j !in end.conn.subs[t].sent && j !in Arrived(end.conn, t)
      && (OnItsWay(end, Event(t, j)) ==> j in end.conn.subs[t].replayed)
  {
    PageReadOk(r, t);
    DroppedIsCommitted(Next(r, ReadPage), later, t, j);
    PromiseKeptAlong(Next(r, ReadPage), later, t, j);
    StillServed(Next(r, ReadPage), later, t);
  }

  lemma SentIsPositive(s: Sys, t: Topic)
    requires Ok(s) && t in s.conn.subs
    ensures Positive(s.conn.subs[t].sent) && Positive(Arrived(s.conn, t))
  {
    assert SubOk(s, t);
    assert forall k :: k in s.conn.subs[t].sent ==> Event(t, k) in s.log;
    assert forall k :: k in Arrived(s.conn, t) ==> k in s.conn.subs[t].sent;
  }

  /** A subscription of a new connection asks from the mark, the topic is published in order and its replay fits, no
      step drops event j this time, j is through and the writer has sent what was queued. */
  ghost predicate ComesBack(end: Sys, before: seq<Step>, later: seq<Step>, t: Topic, j: Cursor)
    requires t in end.conn.subs
  {
    var u := Reconnected(end);
    var r, v := After(u, before), After(u, Whole(before, later));
    && r.pc == Registered(t) && t in r.conn.subs && r.conn.subs[t].after == AskFrom(Mark(end.conn, t))
    && AllOrderly(u, Whole(before, later), t) && StaysOn(later, t)
    && Through(v, t, j) && Frames(v.conn.queue, t) == []
    && !DroppedAlong(Next(r, ReadPage), later, t, j)
  }

  /** What the handlers got over both connections. */
  function HandledOverBoth(end: Sys, again: Sys, t: Topic): seq<Cursor>
    requires t in end.conn.subs && t in again.conn.subs
  {
    Live.Handled(CursorOf(end.conn.subs[t].after), Arrived(end.conn, t) + Arrived(again.conn, t))
  }

  /** Once a browser has a cursor, an event that did not arrive before the connection ended reaches the handlers after
      the reconnect if and only if no event with a higher cursor had arrived. */
  lemma ArrivesLaterExactlyWhen(end: Sys, before: seq<Step>, later: seq<Step>, t: Topic, j: Cursor)
    requires Ok(end) && t in end.conn.subs && end.conn.subs[t].after < j && j !in Arrived(end.conn, t)
    requires Mark(end.conn, t).Some? && ComesBack(end, before, later, t, j)
    ensures j in HandledOverBoth(end, After(Reconnected(end), Whole(before, later)), t)
       <==> !exists k :: k in Arrived(end.conn, t) && k > j
  {
    var c, first := CursorOf(end.conn.subs[t].after), Arrived(end.conn, t);
    var second := Arrived(After(Reconnected(end), Whole(before, later)).conn, t);
    SentIsPositive(end, t);
    MarkIsHighest(c, first);
    var mark := Mark(end.conn, t).value;
    Live.Reconnect(c, first, second);
    if j in Live.Handled(c, first) {
      HandledArrived(c, first, j);
    }
    if mark < j {
      BrowserSeesEverything(Reconnected(end), before, later, t, j);
    } else {
      assert mark in first && mark > j;
      if j > 0 && j in Live.Handled(Some(mark), second) {
        HandledAboveMark(mark, second, j);
      }
      ThroughIsPositive(end, before, later, t, j);
    }
  }

  lemma ThroughIsPositive(end: Sys, before: seq<Step>, later: seq<Step>, t: Topic, j: Cursor)
    requires Ok(end) && t in end.conn.subs && ComesBack(end, before, later, t, j)
    ensures j > 0
  {
    AlwaysOk(Reconnected(end), Whole(before, later));
  }

  // --- live events only ---

  /** Event j has passed by every connection. */
  ghost predicate PassedBy(s: Sys, t: Topic, j: Cursor) {
    && Event(t, j) in s.log && !OnItsWay(s, Event(t, j))
    && (t in s.conn.subs ==> j !in s.conn.subs[t].pending)
  }

  lemma {:induction false} StaysPassedBy(s: Sys, script: seq<Step>, t: Topic, j: Cursor)
    requires PassedBy(s, t, j)
    ensures PassedBy(After(s, script), t, j)
  {
    if script != [] {
      StaysPassedBy(s, script[..|script| - 1], t, j);
      StepPassesBy(After(s, script[..|script| - 1]), script[|script| - 1], t, j);
    }
  }

  lemma StepPassesBy(s: Sys, step: Step, t: Topic, j: Cursor)
    requires PassedBy(s, t, j)
    ensures PassedBy(Next(s, step), t, j)
  {}

  /** Without a cursor there is no page. */
  ghost predicate NoPage(s: Sys, t: Topic) {
    t in s.conn.subs && s.conn.subs[t].after < 0 ==>
      s.conn.subs[t].replayed == {} && (s.pc.PageRead? && s.pc.topic == t ==> s.pc.backlog == [])
  }

  lemma {:induction false} AlwaysNoPage(s: Sys, script: seq<Step>, t: Topic)
    requires NoPage(s, t)
    ensures NoPage(After(s, script), t)
  {
    if script != [] {
      AlwaysNoPage(s, script[..|script| - 1], t);
      StepHasNoPage(After(s, script[..|script| - 1]), script[|script| - 1], t);
    }
  }

  lemma StepHasNoPage(s: Sys, step: Step, t: Topic)
    requires NoPage(s, t)
    ensures NoPage(Next(s, step), t)
  {}

  /** A browser that subscribed to live events only and got none before the connection ended never gets an event that
      was dropped. */
  lemma LiveOnlyNeverComesBack(end: Sys, before: seq<Step>, later: seq<Step>, t: Topic, j: Cursor)
    requires Ok(end) && t in end.conn.subs && Event(t, j) in end.log && !OnItsWay(end, Event(t, j))
    requires Mark(end.conn, t).None? && ComesBack(end, before, later, t, j)
    ensures j !in HandledOverBoth(end, After(Reconnected(end), Whole(before, later)), t)
  {
    var u := Reconnected(end);
    var r, again := After(u, before), After(u, Whole(before, later));
    SentIsPositive(end, t);
    MarkIsHighest(CursorOf(end.conn.subs[t].after), Arrived(end.conn, t));
    AlwaysOk(u, before);
    StaysPassedBy(u, before, t, j);
    WholeRuns(u, before, later);
    GapExactlyWhen(r, later, t, j);
    assert [] + Arrived(again.conn, t) == Arrived(again.conn, t);
    if j in Live.Handled(None, Arrived(again.conn, t)) {
      HandledArrived(None, Arrived(again.conn, t), j);
    }
  }

  /** Main result: an event that was dropped is lost for good, reconnect included, if and only if a frame of its topic
      with a higher cursor got out before the connection ended, or the browser had no cursor to come back with. */
  lemma DroppedForGoodExactlyWhen(r: Sys, sofar: seq<Step>, before: seq<Step>, later: seq<Step>, t: Topic, j: Cursor)
    requires AboutToRead(r, t) && r.conn.subs[t].after < j && StaysOn(sofar, t)
    requires DroppedAlong(Next(r, ReadPage), sofar, t, j)
    requires var end := After(Next(r, ReadPage), sofar); t in end.conn.subs && ComesBack(end, before, later, t, j)
    ensures var end := After(Next(r, ReadPage), sofar);
      j !in HandledOverBoth(end, After(Reconnected(end), Whole(before, later)), t)
      <==> || (exists k :: k in Arrived(end.conn, t) && k > j)
           || (r.conn.subs[t].after < 0 && Arrived(end.conn, t) == [])
  {
    var end := After(Next(r, ReadPage), sofar);
    PageReadOk(r, t);
    AlwaysOk(Next(r, ReadPage), sofar);
    DroppedNeverArrives(r, sofar, t, j);
    SentIsPositive(end, t);
    MarkIsHighest(CursorOf(end.conn.subs[t].after), Arrived(end.conn, t));
    if Mark(end.conn, t).Some? {
      ArrivesLaterExactlyWhen(end, before, later, t, j);
    } else {
      AlwaysNoPage(Next(r, ReadPage), sofar, t);
      LiveOnlyNeverComesBack(end, before, later, t, j);
    }
  }

  /** With orderly publication such a frame was sent after the drop: at that moment nothing higher had been sent. */
  lemma NothingHigherBeforeTheDrop(s: Sys, script: seq<Step>, step: Step, t: Topic, j: Cursor)
    requires Ok(s) && t !in s.conn.subs && AllOrderly(s, script + [step], t) && Drops(After(s, script), step, t, j)
    requires After(s, script).conn.subs[t].after < j
    ensures var sub := After(s, script).conn.subs[t]; forall x :: x in sub.sent && x > sub.after ==> x < j
  {
    var v := After(s, script);
    OrderlyPrefix(s, script, [step], t);
    AlwaysSorted(s, script, t);
    AlwaysOk(s, script);
    var sub := v.conn.subs[t];
    if step.Hand? && sub.ready {
      assert Line(v, t) == sub.sent && OnItsWay(v, Event(t, j));
    } else if step.ReleaseNext? {
      var line := Line(v, t);
      assert line == sub.sent + v.pc.left && line[|sub.sent|] == j;
      forall x | x in sub.sent && x > sub.after
        ensures x < j
      {
        var i :| 0 <= i < |sub.sent| && sub.sent[i] == x;
        assert line[i] == x;
      }
    }
  }
}
