/** Live events to one connection, step by step as the locks allow them to interleave: committing an event,
    Publish taking its snapshot of subscribers, delivering to this connection, the connection's own goroutine
    subscribing, reading the replay page and releasing what was held back, and its writer sending frames. */
module HubSteps {
  import opened Lists

  const SEND_QUEUE: nat := 8192
  const MAX_PENDING: nat := 4096
  const MAX_TOPICS: nat := 256

  /** One replay page: a Run's events, and every other topic. */
  const RUN_PAGE: nat := 5000
  const FEED_PAGE: nat := 1000

  type Cursor = int

  datatype Topic = RunTopic(id: nat) | FeedTopic(id: nat)

  datatype Event = Event(topic: Topic, cursor: Cursor)

  /** A subscription. `after` and `sent` are history: the cursor asked for, and the cursors queued so far. */
  datatype Sub = Sub(ready: bool, pending: seq<Cursor>, replayed: set<Cursor>, after: int, sent: seq<Cursor>)

  /** `closing` is set once a frame was dropped: somebody is about to close the connection. */
  datatype Conn = Conn(subs: map<Topic, Sub>, queue: seq<Event>, closing: bool)

  /** Where the connection's goroutine is between two of its locked sections. */
  datatype Pc =
    | Idle
    | Opened(topic: Topic)
    | Registered(topic: Topic)
    | PageRead(topic: Topic, backlog: seq<Cursor>)
    | Releasing(topic: Topic, left: seq<Cursor>)
    | Leaving(topic: Topic)

  /** log: events committed, in commit order. waiting: committed, Publish has not looked for subscribers yet.
      flying: Publish saw this connection among the subscribers and has not delivered yet. */
  datatype Sys = Sys(log: seq<Event>, waiting: set<Event>, flying: set<Event>, joined: set<Topic>, conn: Conn, pc: Pc)

  const START := Sys([], {}, {}, {}, Conn(map[], [], false), Idle)

  // --- one connection ---

  /** A full queue means the client is too slow: the frame is dropped and the connection closed. */
  function Enqueue(c: Conn, t: Topic, k: Cursor): Conn
    requires t in c.subs
  {
    if |c.queue| < SEND_QUEUE then
      Conn(c.subs[t := c.subs[t].(sent := c.subs[t].sent + [k])], c.queue + [Event(t, k)], c.closing)
    else c.(closing := true)
  }

  function Deliver(c: Conn, t: Topic, k: Cursor): Conn {
    if t !in c.subs then c
    else if !c.subs[t].ready then
      if |c.subs[t].pending| >= MAX_PENDING then c.(closing := true)
      else c.(subs := c.subs[t := c.subs[t].(pending := c.subs[t].pending + [k])])
    else if k in c.subs[t].replayed then c
    else Enqueue(c, t, k)
  }

  function Beyond(pending: seq<Cursor>, replayed: set<Cursor>): (r: seq<Cursor>)
    ensures forall k :: k in r <==> k in pending && k !in replayed
  {
    if pending == [] then []
    else if pending[0] in replayed then Beyond(pending[1..], replayed)
    else [pending[0]] + Beyond(pending[1..], replayed)
  }

  function ToSet(ks: seq<Cursor>): set<Cursor> { set k | k in ks }

  /** What a release sends: the backlog, then what was held back and is not in it. */
  function ToRelease(backlog: seq<Cursor>, pending: seq<Cursor>): seq<Cursor> {
    backlog + Beyond(pending, ToSet(backlog))
  }

  function WithSeen(c: Conn, t: Topic, seen: set<Cursor>): Conn
    requires t in c.subs
  {
    c.(subs := c.subs[t := c.subs[t].(replayed := seen)])
  }

  function WithReady(c: Conn, t: Topic): Conn
    requires t in c.subs
  {
    c.(subs := c.subs[t := c.subs[t].(pending := [], ready := true)])
  }

  // --- the database ---

  predicate Less(a: Cursor, b: Cursor) { a < b }

  /** The topic's cursors after a cursor, oldest first. */
  function Missed(log: seq<Event>, t: Topic, after: int): (m: seq<Cursor>)
    ensures forall k :: k in m <==> Event(t, k) in log && k > after
  {
    if log == [] then []
    else
      var rest := Missed(log[1..], t, after);
      if log[0].topic == t && log[0].cursor > after then Insert(rest, log[0].cursor, Less) else rest
  }

  function PageSize(t: Topic): nat { if t.RunTopic? then RUN_PAGE else FEED_PAGE }

  /** One page of it: from the cursor on, except that a feed asked for from 0 gives its newest page. */
  function Page(log: seq<Event>, t: Topic, after: int): seq<Cursor> {
    var m := Missed(log, t, after);
    var n := PageSize(t);
    if after < 0 then []
    else if |m| <= n then m
    else if t.FeedTopic? && after == 0 then m[|m| - n..]
    else m[..n]
  }

  // --- the steps ---

  datatype Step =
    | Commit(event: Event)
    | Snapshot(event: Event)
    | Hand(event: Event)
    | Open(topic: Topic, after: int)
    | Register
    | ReadPage
    | ReadFails
    | LetGo
    | ReleaseNext
    | Leave(topic: Topic)
    | Forget
    | Write

  function Next(s: Sys, step: Step): Sys {
    match step
    case Commit(e) =>
      if e.cursor <= 0 || e in s.log then s else s.(log := s.log + [e], waiting := s.waiting + {e})
    case Snapshot(e) =>
      if e !in s.waiting then s
      else s.(waiting := s.waiting - {e}, flying := if e.topic in s.joined then s.flying + {e} else s.flying)
    case Hand(e) =>
      if e !in s.flying || s.pc.Releasing? then s // a release holds the lock deliveries need
      else s.(flying := s.flying - {e}, conn := Deliver(s.conn, e.topic, e.cursor))
    case Open(t, after) =>
      if !s.pc.Idle? || t in s.conn.subs || |s.conn.subs| >= MAX_TOPICS then s
      else s.(conn := s.conn.(subs := s.conn.subs[t := Sub(false, [], {}, after, [])]), pc := Opened(t))
    case Register =>
      if !s.pc.Opened? then s else s.(joined := s.joined + {s.pc.topic}, pc := Registered(s.pc.topic))
    case ReadPage =>
      if !s.pc.Registered? || s.pc.topic !in s.conn.subs then s
      else s.(pc := PageRead(s.pc.topic, Page(s.log, s.pc.topic, s.conn.subs[s.pc.topic].after)))
    case ReadFails =>
      if !s.pc.Registered? then s else s.(joined := s.joined - {s.pc.topic}, pc := Leaving(s.pc.topic))
    case LetGo =>
      if !s.pc.PageRead? || s.pc.topic !in s.conn.subs then s
      else
        var t, backlog := s.pc.topic, s.pc.backlog;
        s.(conn := WithSeen(s.conn, t, ToSet(backlog)),
           pc := Releasing(t, ToRelease(backlog, s.conn.subs[t].pending)))
    case ReleaseNext =>
      if !s.pc.Releasing? || s.pc.topic !in s.conn.subs then s
      else if s.pc.left == [] then s.(conn := WithReady(s.conn, s.pc.topic), pc := Idle)
      else s.(conn := Enqueue(s.conn, s.pc.topic, s.pc.left[0]), pc := Releasing(s.pc.topic, s.pc.left[1..]))
    case Leave(t) =>
      if !s.pc.Idle? then s else s.(joined := s.joined - {t}, pc := Leaving(t))
    case Forget =>
      if !s.pc.Leaving? then s else s.(conn := s.conn.(subs := s.conn.subs - {s.pc.topic}), pc := Idle)
    case Write =>
      if s.conn.queue == [] then s else s.(conn := s.conn.(queue := s.conn.queue[1..]))
  }

  function After(s: Sys, script: seq<Step>): Sys {
    if script == [] then s else Next(After(s, script[..|script| - 1]), script[|script| - 1])
  }

  lemma AfterOneMore(s: Sys, script: seq<Step>, step: Step)
    ensures After(s, script + [step]) == Next(After(s, script), step)
  {
    assert (script + [step])[..|script|] == script;
  }

  lemma {:induction false} AfterConcat(s: Sys, a: seq<Step>, b: seq<Step>)
    ensures After(s, a + b) == After(After(s, a), b)
    decreases |b|
  {
    if b == [] {
      assert a + b == a;
    } else {
      assert (a + b)[..|a + b| - 1] == a + b[..|b| - 1];
      AfterConcat(s, a, b[..|b| - 1]);
    }
  }
}
