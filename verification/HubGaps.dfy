/** Runs from the start of the Server in which a subscriber does not see every event: the backlog does not fit its page,
    the queue overflows (and reconnecting does not help), and two transactions publish in the other order. */
module HubGaps {
  import opened Lists
  import opened HubSteps
  import opened HubLaws
  import opened HubArrival
  import opened HubReconnect
  import HubServer
  import Live

  const T := FeedTopic(0)
  const NOBODY := Conn(map[], [], false)

  function E(k: Cursor): Event { Event(T, k) }

  /** The cursors a, ..., n. */
  function Ups(a: nat, n: nat): (ks: seq<Cursor>)
    ensures |ks| == if a <= n then n - a + 1 else 0
    ensures forall i :: 0 <= i < |ks| ==> ks[i] == a + i
    decreases n + 1 - a
  {
    if a > n then [] else [a] + Ups(a + 1, n)
  }

  function Events(a: nat, n: nat): (es: seq<Event>)
    ensures |es| == if a <= n then n - a + 1 else 0
    ensures forall i :: 0 <= i < |es| ==> es[i] == E(a + i)
    decreases n + 1 - a
  {
    if a > n then [] else [E(a)] + Events(a + 1, n)
  }

  lemma OneMore(script: seq<Step>, step: Step, s: Sys, v: Sys)
    requires After(START, script) == s && Next(s, step) == v
    ensures After(START, script + [step]) == v
  {
    AfterOneMore(START, script, step);
  }

  lemma Listed(n: nat)
    ensures Events(1, n) + [E(n + 1)] == Events(1, n + 1) && Ups(1, n) + [n + 1] == Ups(1, n + 1)
    ensures E(n + 1) !in Events(1, n) && n + 1 !in Ups(1, n)
  {}

  // --- the steps used below ---

  lemma Commits(s: Sys, k: Cursor)
    requires k > 0 && E(k) !in s.log
    ensures Next(s, Commit(E(k))) == s.(log := s.log + [E(k)], waiting := s.waiting + {E(k)})
  {}

  /** Publish finds nobody, or this connection. */
  lemma Publishes(s: Sys, k: Cursor)
    requires s.waiting == {E(k)}
    ensures Next(s, Snapshot(E(k)))
         == s.(waiting := {}, flying := if T in s.joined then s.flying + {E(k)} else s.flying)
  {
    assert s.waiting - {E(k)} == {};
  }

  /** Committed and published at once. */
  lemma Passes(script: seq<Step>, s: Sys, k: Cursor)
    requires After(START, script) == s && k > 0 && E(k) !in s.log && s.waiting == {}
    ensures After(START, script + [Commit(E(k))] + [Snapshot(E(k))])
      == s.(log := s.log + [E(k)], flying := if T in s.joined then s.flying + {E(k)} else s.flying)
  {
    var v := s.(log := s.log + [E(k)], waiting := {E(k)});
    Commits(s, k);
    assert s.waiting + {E(k)} == {E(k)};
    OneMore(script, Commit(E(k)), s, v);
    Publishes(v, k);
    var u := s.(log := s.log + [E(k)], flying := if T in s.joined then s.flying + {E(k)} else s.flying);
    OneMore(script + [Commit(E(k))], Snapshot(E(k)), v, u);
  }

  function Asked(after: int): Conn { Conn(map[T := Sub(false, [], {}, after, [])], [], false) }

  function Asking(log: seq<Event>, after: int, pc: Pc): Sys { Sys(log, {}, {}, {T}, Asked(after), pc) }

  function Unheard(log: seq<Event>): Sys { Sys(log, {}, {}, {}, NOBODY, Idle) }

  /** The subscription has the page and nothing else. */
  predicate HasPage(c: Conn, after: int, page: seq<Cursor>) {
    && !c.closing && |c.queue| == |page| && c.subs == map[T := Sub(true, [], ToSet(page), after, page)]
  }

  lemma Joins(log: seq<Event>, after: int)
    ensures Next(Next(Unheard(log), Open(T, after)), Register) == Asking(log, after, Registered(T))
  {
    assert {} + {T} == {T};
  }

  lemma Reads(log: seq<Event>, after: int)
    ensures Next(Asking(log, after, Registered(T)), ReadPage) == Asking(log, after, PageRead(T, Page(log, T, after)))
  {}

  lemma AsksAndReads(log: seq<Event>, after: int)
    ensures After(Unheard(log), [Open(T, after)] + [Register] + [ReadPage])
         == Asking(log, after, PageRead(T, Page(log, T, after)))
  {
    var s := Unheard(log);
    AfterOneMore(s, [], Open(T, after));
    assert [] + [Open(T, after)] == [Open(T, after)];
    AfterOneMore(s, [Open(T, after)], Register);
    AfterOneMore(s, [Open(T, after)] + [Register], ReadPage);
    Joins(log, after);
    Reads(log, after);
  }

  /** Subscribing while nothing is on its way: the page is all there is. */
  lemma Subscribes(log: seq<Event>, after: int) returns (script: seq<Step>)
    requires |Page(log, T, after)| <= SEND_QUEUE
    ensures var s := After(Unheard(log), script);
      && s == Sys(log, {}, {}, {T}, s.conn, Idle) && HasPage(s.conn, after, Page(log, T, after))
  {
    var page := Page(log, T, after);
    var asked := [Open(T, after)] + [Register] + [ReadPage];
    AsksAndReads(log, after);
    var released := HubServer.ReleaseRuns(Asking(log, after, PageRead(T, page)), []);
    AfterConcat(Unheard(log), asked, released);
    ReleasesPage(after, page);
    script := asked + released;
  }

  lemma ReleasesPage(after: int, page: seq<Cursor>)
    requires |page| <= SEND_QUEUE
    ensures HasPage(HubServer.Release(Asked(after), T, page, []), after, page)
  {
    assert ToRelease(page, []) == page;
    EnqueueAllFits(Asked(after), T, page);
    assert [] + page == page;
  }

  lemma {:induction false} EnqueueAllFits(c: Conn, t: Topic, ks: seq<Cursor>)
    requires t in c.subs && |c.queue| + |ks| <= SEND_QUEUE
    ensures var d := HubServer.EnqueueAll(c, t, ks, [], 0);
      && d.closing == c.closing && |d.queue| == |c.queue| + |ks|
      && d.subs == c.subs[t := c.subs[t].(sent := c.subs[t].sent + ks)]
  {
    if ks == [] {
      assert c.subs[t].sent + [] == c.subs[t].sent;
      assert c.subs[t := c.subs[t]] == c.subs;
    } else {
      var n := |ks| - 1;
      EnqueueAllFits(c, t, ks[..n]);
      assert c.subs[t].sent + ks[..n] + [ks[n]] == c.subs[t].sent + ks;
      OneFits(c, HubServer.EnqueueAll(c, t, ks[..n], [], 0), t, ks[..n], ks[n]);
    }
  }

  lemma OneFits(c: Conn, d: Conn, t: Topic, ks: seq<Cursor>, k: Cursor)
    requires t in c.subs && t in d.subs && |d.queue| < SEND_QUEUE
    requires d.subs == c.subs[t := c.subs[t].(sent := c.subs[t].sent + ks)]
    ensures var e := HubServer.WriteThenQueue(d, 0, t, k);
      && e.closing == d.closing && |e.queue| == |d.queue| + 1
      && e.subs == c.subs[t := c.subs[t].(sent := c.subs[t].sent + ks + [k])]
  {}

  // --- a backlog that does not fit the page ---

  /** n events committed and published with nobody listening. */
  lemma {:induction false} NobodyListens(n: nat) returns (script: seq<Step>)
    ensures After(START, script) == Unheard(Events(1, n))
  {
    if n == 0 {
      script := [];
    } else {
      script := NobodyListens(n - 1);
      Listed(n - 1);
      Passes(script, Unheard(Events(1, n - 1)), n);
      script := script + [Commit(E(n))] + [Snapshot(E(n))];
    }
  }

  /** Committed in cursor order, all of them are missed in that order. */
  lemma {:induction false} MissedAll(log: seq<Event>, ks: seq<Cursor>)
    requires |log| == |ks| && forall i :: 0 <= i < |ks| ==> log[i] == E(ks[i]) && ks[i] > 0
    requires forall i, j :: 0 <= i < j < |ks| ==> ks[i] < ks[j]
    ensures Missed(log, T, 0) == ks
  {
    if ks != [] {
      MissedAll(log[1..], ks[1..]);
      assert log == [E(ks[0])] + log[1..];
      MissedHead(ks[0], log[1..]);
      InsertFirst(ks[0], ks[1..]);
      assert [ks[0]] + ks[1..] == ks;
    }
  }

  lemma MissedHead(k: Cursor, rest: seq<Event>)
    requires k > 0
    ensures Missed([E(k)] + rest, T, 0) == Insert(Missed(rest, T, 0), k, Less)
  {
    assert ([E(k)] + rest)[1..] == rest;
  }

  lemma InsertFirst(a: Cursor, rest: seq<Cursor>)
    requires rest != [] ==> a <= rest[0]
    ensures Insert(rest, a, Less) == [a] + rest
  {
    assert Place(rest, a, Less) == 0;
    assert rest[..0] + [a] + rest[0..] == [a] + rest;
  }

  lemma NewestPage(n: nat)
    requires n == FEED_PAGE + 1
    ensures Page(Events(1, n), T, 0) == Ups(2, n)
  {
    MissedAll(Events(1, n), Ups(1, n));
    assert Ups(1, n)[1..] == Ups(2, n);
  }

  lemma PageLacksFirst(n: nat)
    requires n >= 2
    ensures 1 !in Ups(2, n) && Ups(2, n) != [] && |Ups(2, n)| == n - 1 && E(1) in Events(1, n)
  {
    assert Events(1, n)[0] == E(1);
  }

  lemma SubscribesAfter(n: nat, after: int) returns (script: seq<Step>)
    requires |Page(Events(1, n), T, after)| <= SEND_QUEUE
    ensures var s := After(START, script);
      && s == Sys(Events(1, n), {}, {}, {T}, s.conn, Idle) && HasPage(s.conn, after, Page(Events(1, n), T, after))
  {
    var unheard := NobodyListens(n);
    var subscribed := Subscribes(Events(1, n), after);
    AfterConcat(START, unheard, subscribed);
    script := unheard + subscribed;
  }

  ghost predicate MissesTheFirst(s: Sys) {
    && E(1) in s.log && !OnItsWay(s, E(1)) && !s.conn.closing
    && T in s.conn.subs && s.conn.subs[T].ready && s.conn.subs[T].after == 0
    && 1 !in s.conn.subs[T].sent && s.conn.subs[T].sent != []
  }

  lemma OneTooMany(n: nat) returns (script: seq<Step>)
    requires n == FEED_PAGE + 1
    ensures MissesTheFirst(After(START, script))
  {
    NewestPage(n);
    PageLacksFirst(n);
    script := SubscribesAfter(n, 0);
    PageMisses(After(START, script), Events(1, n), Ups(2, n));
  }

  lemma PageMisses(s: Sys, log: seq<Event>, page: seq<Cursor>)
    requires s == Sys(log, {}, {}, {T}, s.conn, Idle) && HasPage(s.conn, 0, page)
    requires E(1) in log && 1 !in page && page != []
    ensures MissesTheFirst(s)
  {}

  /** A run without overflow, with nothing on its way any more, in which the subscriber that asked from cursor 0 does
      not see event 1: one event more than the page holds came before it. */
  lemma EventFallsOffThePage() returns (script: seq<Step>)
    ensures MissesTheFirst(After(START, script))
  {
    script := OneTooMany(FEED_PAGE + 1);
  }

  // --- a queue that overflows ---

  /** Every one of n events was delivered to a client that reads nothing. */
  ghost predicate Flooded(s: Sys, n: nat) {
    && s.log == Events(1, n) && s.waiting == {} && s.flying == {} && s.joined == {T} && !s.conn.closing && s.pc.Idle?
    && |s.conn.queue| == n && s.conn.subs == map[T := Sub(true, [], {}, -1, Ups(1, n))]
  }

  lemma Delivers(s: Sys, k: Cursor)
    requires s.flying == {E(k)} && T in s.conn.subs && s.conn.subs[T].ready && k !in s.conn.subs[T].replayed
    requires |s.conn.queue| < SEND_QUEUE && s.pc.Idle?
    ensures var v := Next(s, Hand(E(k)));
      && v.pc.Idle? && v.flying == {} && v.log == s.log && v.waiting == s.waiting && v.joined == s.joined
      && v.conn.closing == s.conn.closing && |v.conn.queue| == |s.conn.queue| + 1
      && v.conn.subs == s.conn.subs[T := s.conn.subs[T].(sent := s.conn.subs[T].sent + [k])]
  {
    assert s.flying - {E(k)} == {};
  }

  /** One more event, from commit to queue. */
  lemma FloodOneMore(s: Sys, n: nat)
    requires Flooded(s, n) && n < SEND_QUEUE
    ensures Flooded(Next(s.(log := s.log + [E(n + 1)], flying := {E(n + 1)}), Hand(E(n + 1))), n + 1)
  {
    Listed(n);
    var v := s.(log := s.log + [E(n + 1)], flying := {E(n + 1)});
    Delivers(v, n + 1);
    assert v.conn.subs[T := Sub(true, [], {}, -1, Ups(1, n + 1))] == map[T := Sub(true, [], {}, -1, Ups(1, n + 1))];
  }

  lemma FloodStep(script: seq<Step>, s: Sys, n: nat)
    requires After(START, script) == s && Flooded(s, n) && n < SEND_QUEUE
    ensures Flooded(After(START, script + [Commit(E(n + 1))] + [Snapshot(E(n + 1))] + [Hand(E(n + 1))]), n + 1)
  {
    Listed(n);
    Passes(script, s, n + 1);
    var v := s.(log := s.log + [E(n + 1)], flying := {E(n + 1)});
    assert s.flying + {E(n + 1)} == {E(n + 1)};
    OneMore(script + [Commit(E(n + 1))] + [Snapshot(E(n + 1))], Hand(E(n + 1)), v, Next(v, Hand(E(n + 1))));
    FloodOneMore(s, n);
  }

  lemma {:induction false} Flood(n: nat) returns (script: seq<Step>)
    requires n <= SEND_QUEUE
    ensures Flooded(After(START, script), n)
  {
    if n == 0 {
      script := Subscribes([], -1);
      assert ToSet([]) == {};
    } else {
      script := Flood(n - 1);
      FloodStep(script, After(START, script), n - 1);
      script := script + [Commit(E(n))] + [Snapshot(E(n))] + [Hand(E(n))];
    }
  }

  /** With a full queue two more events are published. */
  lemma TwoInFlight(n: nat) returns (script: seq<Step>)
    requires n == SEND_QUEUE
    ensures var s := After(START, script);
      && s.waiting == {} && s.flying == {E(n + 1), E(n + 2)} && s.log == Events(1, n + 2) && s.pc.Idle?
      && |s.conn.queue| == n && s.conn.subs == map[T := Sub(true, [], {}, -1, Ups(1, n))]
  {
    script := Flood(n);
    var s := After(START, script);
    Listed(n);
    Listed(n + 1);
    Passes(script, s, n + 1);
    assert s.flying + {E(n + 1)} == {E(n + 1)};
    script := script + [Commit(E(n + 1))] + [Snapshot(E(n + 1))];
    Passes(script, After(START, script), n + 2);
    assert {E(n + 1)} + {E(n + 2)} == {E(n + 1), E(n + 2)};
    script := script + [Commit(E(n + 2))] + [Snapshot(E(n + 2))];
  }

  /** Why overflow ends the promise: after one frame is dropped the close is still to come, and the writer makes room
      for a later one. */
  lemma DropThenSend(s: Sys, j: Cursor, k: Cursor)
    requires T in s.conn.subs && s.conn.subs[T].ready && |s.conn.queue| == SEND_QUEUE && s.conn.subs[T].replayed == {}
    requires j != k && s.flying == {E(j), E(k)} && !s.pc.Releasing?
    ensures Drops(s, Hand(E(j)), T, j)
    ensures var v := Next(Next(Next(s, Hand(E(j))), Write), Hand(E(k)));
      && v.log == s.log && v.waiting == s.waiting && v.flying == {}
      && v.conn.closing && |v.conn.queue| == SEND_QUEUE
      && v.conn.subs == s.conn.subs[T := s.conn.subs[T].(sent := s.conn.subs[T].sent + [k])]
  {
    var s1 := Next(s, Hand(E(j)));
    assert s1.conn == s.conn.(closing := true) && s1.flying == {E(k)};
    var s2 := Next(s1, Write);
    assert |s2.conn.queue| == SEND_QUEUE - 1 && s2.flying - {E(k)} == {};
  }

  /** A run in which the client gets a later event and never the earlier one, before the connection closes: the earlier
      was dropped from a full queue, then the writer sent one frame, and at last all the others. */
  lemma OverflowLosesTheEarlier() returns (script: seq<Step>, j: Cursor, k: Cursor)
    ensures j == SEND_QUEUE + 1 && k == SEND_QUEUE + 2
    ensures var s := After(START, script);
      && s.log == Events(1, k) && s.waiting == {} && s.flying == {} && s.conn.closing && s.conn.queue == []
      && s.conn.subs == map[T := Sub(true, [], {}, -1, Ups(1, SEND_QUEUE) + [k])]
      && Arrived(s.conn, T) == Ups(1, SEND_QUEUE) + [k]
  {
    var n: nat := SEND_QUEUE;
    script := TwoInFlight(n);
    j, k := n + 1, n + 2;
    var s := After(START, script);
    DropThenSend(s, j, k);
    OneMore(script, Hand(E(j)), s, Next(s, Hand(E(j))));
    OneMore(script + [Hand(E(j))], Write, Next(s, Hand(E(j))), Next(Next(s, Hand(E(j))), Write));
    OneMore(script + [Hand(E(j))] + [Write], Hand(E(k)), Next(Next(s, Hand(E(j))), Write),
            Next(Next(Next(s, Hand(E(j))), Write), Hand(E(k))));
    script := script + [Hand(E(j))] + [Write] + [Hand(E(k))];
    var writes := HubServer.DrainRuns(After(START, script), n);
    AfterConcat(START, script, writes);
    script := script + writes;
    assert map[T := Sub(true, [], {}, -1, Ups(1, n))][T := Sub(true, [], {}, -1, Ups(1, n) + [k])]
        == map[T := Sub(true, [], {}, -1, Ups(1, n) + [k])];
  }

  lemma NoneAbove(log: seq<Event>, n: int)
    requires forall e :: e in log ==> e.cursor <= n
    ensures Missed(log, T, n) == []
  {
    assert |Missed(log, T, n)| == 0;
  }

  lemma NothingBeyond(n: nat)
    ensures Page(Events(1, n), T, n) == []
  {
    NoneAbove(Events(1, n), n);
  }

  lemma MarkOfFlood(n: nat, k: nat)
    requires k > n
    ensures Live.CursorAfter(None, Ups(1, n) + [k]) == Some(k)
  {
    var frames := Ups(1, n) + [k];
    assert frames[|frames| - 1] == k && k in frames && forall x :: x in frames ==> 0 < x <= k;
    MarkIsHighest(None, frames);
  }

  /** Coming back does not help: the browser asks from the later event, so the dropped one is never replayed. */
  lemma OverflowLosesForGood() returns (script: seq<Step>, again: seq<Step>, j: Cursor)
    ensures var end, v := After(START, script), After(Reconnected(After(START, script)), again);
      && T in end.conn.subs && T in v.conn.subs && E(j) in end.log && Through(v, T, j) && v.conn.queue == []
      && v.conn.subs[T].after == AskFrom(Mark(end.conn, T)) && j !in HandledOverBoth(end, v, T)
  {
    var k;
    script, j, k := OverflowLosesTheEarlier();
    var end := After(START, script);
    assert Events(1, k)[j - 1] == E(j);
    NothingBeyond(k);
    MarkOfFlood(SEND_QUEUE, k);
    again := Subscribes(end.log, k);
    assert Reconnected(end) == Unheard(end.log);
    var v := After(Unheard(end.log), again);
    var both := Arrived(end.conn, T) + Arrived(v.conn, T);
    assert Arrived(v.conn, T) == [] && j !in both;
    if j in Live.Handled(None, both) {
      HandledArrived(None, both, j);
    }
  }

  // --- two transactions that publish in the other order ---

  /** Hands a frame to a subscription that is ready, with the rest of the state given. */
  lemma Hands(script: seq<Step>, s: Sys, k: Cursor, left: set<Event>)
    requires After(START, script) == s && E(k) in s.flying && s.flying - {E(k)} == left
    requires T in s.conn.subs && s.conn.subs[T].ready && k !in s.conn.subs[T].replayed && |s.conn.queue| < SEND_QUEUE
    requires s.pc.Idle?
    ensures var v := After(START, script + [Hand(E(k))]);
      && v.pc.Idle?
      && v.flying == left && v.conn.closing == s.conn.closing && |v.conn.queue| == |s.conn.queue| + 1
      && v.conn.subs == s.conn.subs[T := s.conn.subs[T].(sent := s.conn.subs[T].sent + [k])]
  {
    OneMore(script, Hand(E(k)), s, Next(s, Hand(E(k))));
  }

  /** Both events are committed, then both transactions have taken their snapshot. */
  lemma BothInFlight() returns (script: seq<Step>)
    ensures var s := After(START, script);
      && s.waiting == {} && s.flying == {E(1), E(2)} && s.conn.queue == [] && !s.conn.closing && s.pc.Idle?
      && s.conn.subs == map[T := Sub(true, [], {}, 0, [])]
  {
    script := Subscribes([], 0);
    assert ToSet([]) == {};
    var s := After(START, script);
    var s1 := s.(log := [E(1)], waiting := {E(1)});
    Commits(s, 1);
    assert s.log + [E(1)] == [E(1)] && s.waiting + {E(1)} == {E(1)};
    OneMore(script, Commit(E(1)), s, s1);
    var s2 := s.(log := [E(1), E(2)], waiting := {E(1), E(2)});
    Commits(s1, 2);
    assert s1.log + [E(2)] == [E(1), E(2)] && s1.waiting + {E(2)} == {E(1), E(2)};
    OneMore(script + [Commit(E(1))], Commit(E(2)), s1, s2);
    var s3 := s2.(waiting := {E(2)}, flying := {E(1)});
    Snapshots(s2, 1, {E(2)}, {E(1)});
    OneMore(script + [Commit(E(1))] + [Commit(E(2))], Snapshot(E(1)), s2, s3);
    var s4 := s3.(waiting := {}, flying := {E(1), E(2)});
    Snapshots(s3, 2, {}, {E(1), E(2)});
    OneMore(script + [Commit(E(1))] + [Commit(E(2))] + [Snapshot(E(1))], Snapshot(E(2)), s3, s4);
    script := script + [Commit(E(1))] + [Commit(E(2))] + [Snapshot(E(1))] + [Snapshot(E(2))];
  }

  lemma Snapshots(s: Sys, k: Cursor, left: set<Event>, flying: set<Event>)
    requires E(k) in s.waiting && s.waiting - {E(k)} == left && T in s.joined && s.flying + {E(k)} == flying
    ensures Next(s, Snapshot(E(k))) == s.(waiting := left, flying := flying)
  {}

  /** A run in which the hub sends both events once, the later first, and the browser drops the other as seen. */
  lemma LateEventIsDropped() returns (script: seq<Step>)
    ensures var s := After(START, script);
      && !s.conn.closing && s.flying == {} && s.waiting == {} && T in s.conn.subs
      && s.conn.subs[T].after == 0 && s.conn.subs[T].sent == [2, 1]
      && Live.Handled(Some(0), s.conn.subs[T].sent) == [2]
  {
    script := BothInFlight();
    var s := After(START, script);
    Hands(script, s, 2, {E(1)});
    WaitingStays(s, 2);
    OneMore(script, Hand(E(2)), s, Next(s, Hand(E(2))));
    script := script + [Hand(E(2))];
    var v := After(START, script);
    assert [] + [2] == [2];
    Hands(script, v, 1, {});
    WaitingStays(v, 1);
    OneMore(script, Hand(E(1)), v, Next(v, Hand(E(1))));
    script := script + [Hand(E(1))];
    assert [2] + [1] == [2, 1];
    BrowserDrops();
  }

  lemma WaitingStays(s: Sys, k: Cursor)
    ensures Next(s, Hand(E(k))).waiting == s.waiting
  {}

  lemma BrowserDrops()
    ensures Live.Handled(Some(0), [2, 1]) == [2]
  {
    assert [2, 1][1..] == [1] && [1][1..] == [];
  }
}
