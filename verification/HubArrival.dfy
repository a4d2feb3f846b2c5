/** What has left a connection's queue: the frames a subscriber's browser has received. */
module HubArrival {
  import opened Lists
  import opened HubSteps

  /** A topic's cursors among the frames, in their order. */
  function Frames(es: seq<Event>, t: Topic): seq<Cursor> {
    if es == [] then []
    else (if es[0].topic == t then [es[0].cursor] else []) + Frames(es[1..], t)
  }

  /** What b has before its last |a| elements. */
  function AllBut(a: seq<Cursor>, b: seq<Cursor>): seq<Cursor> {
    if |a| <= |b| then b[..|b| - |a|] else []
  }

  /** The queue is first in, first out: of a subscription's frames those that arrived are the first, all but as many
      as are still queued. (Frames of an earlier subscription to the topic may be queued before them.) */
  function Arrived(c: Conn, t: Topic): (ks: seq<Cursor>)
    requires t in c.subs
    ensures ks <= c.subs[t].sent
    ensures Frames(c.queue, t) == [] ==> ks == c.subs[t].sent
  {
    AllBut(Frames(c.queue, t), c.subs[t].sent)
  }

  /** Read from the end, one is the other as far as both go. */
  predicate EndAlike(a: seq<Cursor>, b: seq<Cursor>) {
    if |a| <= |b| then a == b[|b| - |a|..] else b == a[|a| - |b|..]
  }

  lemma BothOneMore(a: seq<Cursor>, b: seq<Cursor>, k: Cursor)
    requires EndAlike(a, b)
    ensures EndAlike(a + [k], b + [k]) && AllBut(a + [k], b + [k]) == AllBut(a, b)
  {}

  lemma OneLess(a: seq<Cursor>, b: seq<Cursor>)
    requires EndAlike(a, b) && a != []
    ensures EndAlike(a[1..], b)
    ensures AllBut(a[1..], b) == AllBut(a, b) + if |a| <= |b| then [a[0]] else []
  {
    if |a| <= |b| {
      assert b[|b| - |a|] == a[0];
    }
  }

  /** What is queued for a topic is what was sent last. */
  predicate Lined(c: Conn) {
    forall t :: t in c.subs ==> EndAlike(Frames(c.queue, t), c.subs[t].sent)
  }

  lemma {:induction false} FramesOneMore(es: seq<Event>, e: Event, t: Topic)
    ensures Frames(es + [e], t) == Frames(es, t) + if e.topic == t then [e.cursor] else []
  {
    if es == [] {
      assert es + [e] == [e] && [e][1..] == [];
    } else {
      assert (es + [e])[1..] == es[1..] + [e];
      FramesOneMore(es[1..], e, t);
    }
  }

  lemma EnqueueLinesOne(c: Conn, t: Topic, k: Cursor, u: Topic)
    requires t in c.subs && u in c.subs && EndAlike(Frames(c.queue, u), c.subs[u].sent)
    ensures var d := Enqueue(c, t, k);
      u in d.subs && EndAlike(Frames(d.queue, u), d.subs[u].sent) && Arrived(d, u) == Arrived(c, u)
  {
    FramesOneMore(c.queue, Event(t, k), u);
    if u == t {
      BothOneMore(Frames(c.queue, u), c.subs[u].sent, k);
    } else {
      assert Frames(c.queue + [Event(t, k)], u) == Frames(c.queue, u);
    }
  }

  lemma EnqueueLines(c: Conn, t: Topic, k: Cursor)
    requires Lined(c) && t in c.subs
    ensures var d := Enqueue(c, t, k);
      Lined(d) && forall u :: u in c.subs ==> u in d.subs && Arrived(d, u) == Arrived(c, u)
  {
    forall u | u in c.subs
      ensures var d := Enqueue(c, t, k);
        u in d.subs && EndAlike(Frames(d.queue, u), d.subs[u].sent) && Arrived(d, u) == Arrived(c, u)
    {
      EnqueueLinesOne(c, t, k, u);
    }
  }

  /** The frame the writer takes is one of this subscription's: no older frame of the topic is queued. */
  predicate Takes(c: Conn, t: Topic)
    requires t in c.subs
  {
    c.queue != [] && c.queue[0].topic == t && |Frames(c.queue, t)| <= |c.subs[t].sent|
  }

  lemma WriteLines(c: Conn, t: Topic)
    requires c.queue != [] && t in c.subs && EndAlike(Frames(c.queue, t), c.subs[t].sent)
    ensures var d := c.(queue := c.queue[1..]);
      && EndAlike(Frames(d.queue, t), d.subs[t].sent)
      && Arrived(d, t) == Arrived(c, t) + if Takes(c, t) then [c.queue[0].cursor] else []
  {
    if c.queue[0].topic == t {
      assert [c.queue[0].cursor] + Frames(c.queue[1..], t) == Frames(c.queue, t);
      OneLess(Frames(c.queue, t), c.subs[t].sent);
    } else {
      assert [] + Frames(c.queue[1..], t) == Frames(c.queue, t);
    }
  }

  lemma WritesLine(s: Sys)
    requires Lined(s.conn)
    ensures Lined(Next(s, Write).conn)
    ensures forall t :: t in s.conn.subs ==>
      Arrived(Next(s, Write).conn, t)
        == Arrived(s.conn, t) + if Takes(s.conn, t) then [s.conn.queue[0].cursor] else []
  {
    if s.conn.queue != [] {
      forall t | t in s.conn.subs
        ensures EndAlike(Frames(Next(s, Write).conn.queue, t), s.conn.subs[t].sent)
        ensures Arrived(Next(s, Write).conn, t)
          == Arrived(s.conn, t) + if Takes(s.conn, t) then [s.conn.queue[0].cursor] else []
      {
        WriteLines(s.conn, t);
      }
    }
  }

  predicate ArrivedAsBefore(c: Conn, d: Conn) {
    Lined(d) && forall t :: t in c.subs && t in d.subs ==> Arrived(d, t) == Arrived(c, t)
  }

  lemma DeliverLines(c: Conn, t: Topic, k: Cursor)
    requires Lined(c)
    ensures ArrivedAsBefore(c, Deliver(c, t, k))
  {
    if t in c.subs && c.subs[t].ready && k !in c.subs[t].replayed {
      EnqueueLines(c, t, k);
    } else {
      SameFrames(c, Deliver(c, t, k));
    }
  }

  lemma SameFrames(c: Conn, d: Conn)
    requires Lined(c) && d.queue == c.queue
    requires forall t :: t in d.subs ==> d.subs[t].sent == if t in c.subs then c.subs[t].sent else []
    ensures ArrivedAsBefore(c, d)
  {
    forall t | t in d.subs
      ensures EndAlike(Frames(d.queue, t), d.subs[t].sent)
    {
      assert t in c.subs ==> EndAlike(Frames(c.queue, t), c.subs[t].sent);
    }
  }

  lemma ReleaseLines(s: Sys)
    requires Lined(s.conn)
    ensures ArrivedAsBefore(s.conn, Next(s, ReleaseNext).conn)
  {
    if s.pc.Releasing? && s.pc.topic in s.conn.subs && s.pc.left != [] {
      EnqueueLines(s.conn, s.pc.topic, s.pc.left[0]);
    }
  }

  lemma ControlLines(s: Sys, step: Step)
    requires Lined(s.conn) && !step.Write? && !step.Hand? && !step.ReleaseNext?
    ensures ArrivedAsBefore(s.conn, Next(s, step).conn)
  {
    SameFrames(s.conn, Next(s, step).conn);
  }

  /** Nothing arrives but by the writer, and the writer's frames arrive one by one in the order they were sent. */
  lemma ArrivesOnlyByWrite(s: Sys, step: Step)
    requires Lined(s.conn)
    ensures Lined(Next(s, step).conn)
    ensures forall t :: t in s.conn.subs && t in Next(s, step).conn.subs ==>
      Arrived(Next(s, step).conn, t)
        == Arrived(s.conn, t) + if step.Write? && Takes(s.conn, t) then [s.conn.queue[0].cursor] else []
  {
    match step
    case Write => WritesLine(s);
    case Hand(e) => DeliverLines(s.conn, e.topic, e.cursor);
    case ReleaseNext => ReleaseLines(s);
    case _ => ControlLines(s, step);
  }

  lemma {:induction false} AlwaysLined(s: Sys, script: seq<Step>)
    requires Lined(s.conn)
    ensures Lined(After(s, script).conn)
  {
    if script != [] {
      AlwaysLined(s, script[..|script| - 1]);
      ArrivesOnlyByWrite(After(s, script[..|script| - 1]), script[|script| - 1]);
    }
  }
}
