/** The hub and its connections as objects: the locked sections that HubSteps interleaves. */
module HubServer {
  import opened Lists
  import opened HubSteps

  // --- a release as one piece of code, with the writer at work beside it ---

  /** The writer sends up to n queued frames. */
  function Drain(c: Conn, n: nat): Conn {
    c.(queue := if n <= |c.queue| then c.queue[n..] else [])
  }

  /** How much the writer sends before frame number n is queued: nothing beyond the end of its schedule. */
  function Before(w: seq<nat>, n: nat): nat { if n < |w| then w[n] else 0 }

  /** The writer sends up to n frames, then one more is queued. */
  function WriteThenQueue(c: Conn, n: nat, t: Topic, k: Cursor): (d: Conn)
    requires t in c.subs
    ensures t in d.subs && d.subs[t].pending == c.subs[t].pending && d.subs[t].replayed == c.subs[t].replayed
  {
    Enqueue(Drain(c, n), t, k)
  }

  /** Queues the frames one by one, as numbers `from` and up; before number n the writer sends Before(w, n) frames. */
  function EnqueueAll(c: Conn, t: Topic, ks: seq<Cursor>, w: seq<nat>, from: nat): (d: Conn)
    requires t in c.subs
    ensures t in d.subs && d.subs[t].pending == c.subs[t].pending && d.subs[t].replayed == c.subs[t].replayed
  {
    if ks == [] then c
    else
      var n := |ks| - 1;
      WriteThenQueue(EnqueueAll(c, t, ks[..n], w, from), Before(w, from + n), t, ks[n])
  }

  function Release(c: Conn, t: Topic, backlog: seq<Cursor>, w: seq<nat>): Conn
    requires t in c.subs
  {
    WithReady(WithSeen(EnqueueAll(c, t, ToRelease(backlog, c.subs[t].pending), w, 0), t, ToSet(backlog)), t)
  }

  /** The replayed set is not read while frames are queued, so it may be filled along the way. */
  lemma {:induction false} SeenCommutes(c: Conn, t: Topic, ks: seq<Cursor>, w: seq<nat>, from: nat, seen: set<Cursor>)
    requires t in c.subs
    ensures EnqueueAll(WithSeen(c, t, seen), t, ks, w, from) == WithSeen(EnqueueAll(c, t, ks, w, from), t, seen)
  {
    if ks != [] {
      var n := |ks| - 1;
      SeenCommutes(c, t, ks[..n], w, from, seen);
      SeenOne(EnqueueAll(c, t, ks[..n], w, from), Before(w, from + n), t, ks[n], seen);
    }
  }

  lemma SeenOne(d: Conn, n: nat, t: Topic, k: Cursor, seen: set<Cursor>)
    requires t in d.subs
    ensures WriteThenQueue(WithSeen(d, t, seen), n, t, k) == WithSeen(WriteThenQueue(d, n, t, k), t, seen)
  {}

  lemma EnqueueOneMore(c: Conn, t: Topic, ks: seq<Cursor>, k: Cursor, w: seq<nat>, from: nat)
    requires t in c.subs
    ensures EnqueueAll(c, t, ks + [k], w, from)
      == WriteThenQueue(EnqueueAll(c, t, ks, w, from), Before(w, from + |ks|), t, k)
  {
    assert (ks + [k])[..|ks + [k]| - 1] == ks;
  }

  lemma {:induction false} BeyondOneMore(pending: seq<Cursor>, k: Cursor, seen: set<Cursor>)
    ensures Beyond(pending + [k], seen) == Beyond(pending, seen) + if k in seen then [] else [k]
  {
    if pending != [] {
      assert (pending + [k])[1..] == pending[1..] + [k];
      BeyondOneMore(pending[1..], k, seen);
    }
  }

  lemma {:induction false} EnqueueTwice(c: Conn, t: Topic, a: seq<Cursor>, b: seq<Cursor>, w: seq<nat>, from: nat)
    requires t in c.subs
    ensures EnqueueAll(EnqueueAll(c, t, a, w, from), t, b, w, from + |a|) == EnqueueAll(c, t, a + b, w, from)
  {
    if b == [] {
      assert a + b == a;
    } else {
      assert (a + b)[..|a + b| - 1] == a + b[..|b| - 1];
      EnqueueTwice(c, t, a, b[..|b| - 1], w, from);
    }
  }

  lemma OneMore<T>(ks: seq<T>, i: nat)
    requires i < |ks|
    ensures ks[..i + 1] == ks[..i] + [ks[i]]
  {}

  lemma SetOneMore(ks: seq<Cursor>, k: Cursor)
    ensures ToSet(ks + [k]) == ToSet(ks) + {k}
  {
    assert forall x :: x in ks + [k] <==> x in ks || x == k;
  }

  lemma SeenAgain(d: Conn, t: Topic, a: set<Cursor>, b: set<Cursor>)
    requires t in d.subs
    ensures WithSeen(WithSeen(d, t, a), t, b) == WithSeen(d, t, b)
  {}

  /** What was held back up to frame i of a subscription, minus what the page had, queued from number `from` on. */
  function HeldUpTo(c: Conn, t: Topic, pending: seq<Cursor>, i: nat, w: seq<nat>, from: nat): Conn
    requires t in c.subs && i <= |pending|
  {
    EnqueueAll(c, t, Beyond(pending[..i], c.subs[t].replayed), w, from)
  }

  /** A frame that was held back, as number n, unless the page had it. */
  function SendUnlessSeen(c: Conn, t: Topic, k: Cursor, w: seq<nat>, n: nat): (d: Conn)
    requires t in c.subs
    ensures t in d.subs && d.subs[t].replayed == c.subs[t].replayed
  {
    if k in c.subs[t].replayed then c else WriteThenQueue(c, Before(w, n), t, k)
  }

  lemma HeldOneMore(c: Conn, t: Topic, pending: seq<Cursor>, i: nat, w: seq<nat>, from: nat)
    requires t in c.subs && i < |pending|
    ensures var sofar := Beyond(pending[..i], c.subs[t].replayed);
      var d := HeldUpTo(c, t, pending, i, w, from);
      && |Beyond(pending[..i + 1], c.subs[t].replayed)| == |sofar| + (if pending[i] in c.subs[t].replayed then 0 else 1)
      && HeldUpTo(c, t, pending, i + 1, w, from) == SendUnlessSeen(d, t, pending[i], w, from + |sofar|)
  {
    var seen := c.subs[t].replayed;
    assert pending[..i + 1] == pending[..i] + [pending[i]];
    BeyondOneMore(pending[..i], pending[i], seen);
    EnqueueOneMore(c, t, Beyond(pending[..i], seen), pending[i], w, from);
    assert Beyond(pending[..i], seen) + [] == Beyond(pending[..i], seen);
  }

  lemma PageThenHeld(c: Conn, t: Topic, page: seq<Cursor>, more: seq<Cursor>, w: seq<nat>, seen: set<Cursor>)
    requires t in c.subs
    ensures EnqueueAll(WithSeen(EnqueueAll(c, t, page, w, 0), t, seen), t, more, w, |page|)
         == WithSeen(EnqueueAll(c, t, page + more, w, 0), t, seen)
  {
    EnqueueTwice(c, t, page, more, w, 0);
    SeenCommutes(EnqueueAll(c, t, page, w, 0), t, more, w, |page|, seen);
  }

  // --- the same release as steps of the system ---

  predicate InRelease(step: Step) { step.LetGo? || step.ReleaseNext? || step.Write? }

  /** The writer's n frames. */
  lemma {:induction false} DrainRuns(s: Sys, n: nat) returns (script: seq<Step>)
    ensures After(s, script) == s.(conn := Drain(s.conn, n)) && forall x :: x in script ==> InRelease(x)
  {
    script := [];
    if n > 0 {
      script := DrainRuns(s, n - 1);
      AfterOneMore(s, script, Write);
      script := script + [Write];
    }
  }

  /** The writer's frames before it, and one frame. */
  lemma FrameRuns(s: Sys, n: nat) returns (script: seq<Step>)
    requires s.pc.Releasing? && s.pc.topic in s.conn.subs && s.pc.left != []
    ensures After(s, script) == s.(conn := WriteThenQueue(s.conn, n, s.pc.topic, s.pc.left[0]),
                                   pc := Releasing(s.pc.topic, s.pc.left[1..]))
    ensures forall x :: x in script ==> InRelease(x)
  {
    var writes := DrainRuns(s, n);
    AfterOneMore(s, writes, ReleaseNext);
    script := writes + [ReleaseNext];
  }

  /** The first m frames. */
  lemma {:induction false} ReleaseRunsTo(s: Sys, w: seq<nat>, m: nat) returns (script: seq<Step>)
    requires s.pc.PageRead? && s.pc.topic in s.conn.subs
    requires m <= |ToRelease(s.pc.backlog, s.conn.subs[s.pc.topic].pending)|
    ensures var t, all := s.pc.topic, ToRelease(s.pc.backlog, s.conn.subs[s.pc.topic].pending);
      After(s, script) == s.(conn := EnqueueAll(WithSeen(s.conn, t, ToSet(s.pc.backlog)), t, all[..m], w, 0),
                             pc := Releasing(t, all[m..]))
    ensures forall x :: x in script ==> InRelease(x)
  {
    var t, all := s.pc.topic, ToRelease(s.pc.backlog, s.conn.subs[s.pc.topic].pending);
    if m == 0 {
      script := [LetGo];
      AfterOneMore(s, [], LetGo);
      assert all[..0] == [] && all[0..] == all;
    } else {
      var sofar := ReleaseRunsTo(s, w, m - 1);
      OneMore(all, m - 1);
      EnqueueOneMore(WithSeen(s.conn, t, ToSet(s.pc.backlog)), t, all[..m - 1], all[m - 1], w, 0);
      assert all[m - 1..][0] == all[m - 1] && all[m - 1..][1..] == all[m..];
      var more := FrameRuns(After(s, sofar), Before(w, m - 1));
      AfterConcat(s, sofar, more);
      script := sofar + more;
    }
  }

  /** Whatever the writer does meanwhile, a release is a run of the system from the page read to idle. */
  lemma ReleaseRuns(s: Sys, w: seq<nat>) returns (script: seq<Step>)
    requires s.pc.PageRead? && s.pc.topic in s.conn.subs
    ensures After(s, script) == s.(conn := Release(s.conn, s.pc.topic, s.pc.backlog, w), pc := Idle)
    ensures forall x :: x in script ==> InRelease(x)
  {
    var t, all := s.pc.topic, ToRelease(s.pc.backlog, s.conn.subs[s.pc.topic].pending);
    script := ReleaseRunsTo(s, w, |all|);
    assert all[..|all|] == all && all[|all|..] == [];
    SeenCommutes(s.conn, t, all, w, 0, ToSet(s.pc.backlog));
    AfterOneMore(s, script, ReleaseNext);
    script := script + [ReleaseNext];
  }

  class Client {
    var subs: map<Topic, Sub>
    var queue: seq<Event>
    var closing: bool

    ghost function Value(): Conn
      reads this
    {
      Conn(subs, queue, closing)
    }

    constructor ()
      ensures Value() == Conn(map[], [], false)
    {
      subs, queue, closing := map[], [], false;
    }

    /** First section of a subscription: false when it already exists or there are too many. */
    method Begin(t: Topic, after: int) returns (ok: bool)
      modifies this
      ensures ok <==> old(t !in subs && |subs| < MAX_TOPICS)
      ensures Value() == if ok then old(Value()).(subs := old(subs)[t := Sub(false, [], {}, after, [])])
        else old(Value())
    {
      if t in subs || |subs| >= MAX_TOPICS {
        return false;
      }
      subs := subs[t := Sub(false, [], {}, after, [])];
      return true;
    }

    /** The writer's loop while it finds frames, n at most. */
    method WriteFrames(n: nat)
      modifies this
      ensures Value() == Drain(old(Value()), n)
    {
      var i := 0;
      while i < n && queue != []
        invariant 0 <= i <= n && Value() == Drain(old(Value()), i)
      {
        queue := queue[1..];
        i := i + 1;
      }
    }

    method EnqueueLocked(t: Topic, k: Cursor)
      requires t in subs
      modifies this
      ensures Value() == Enqueue(old(Value()), t, k)
    {
      if |queue| < SEND_QUEUE {
        queue := queue + [Event(t, k)];
        subs := subs[t := subs[t].(sent := subs[t].sent + [k])];
      } else {
        closing := true;
      }
    }

    /** The same while the writer, which needs no lock, sends n frames first. */
    method EnqueueBeside(t: Topic, k: Cursor, n: nat)
      requires t in subs
      modifies this
      ensures Value() == WriteThenQueue(old(Value()), n, t, k)
    {
      WriteFrames(n);
      EnqueueLocked(t, k);
    }

    method DeliverLive(t: Topic, k: Cursor)
      modifies this
      ensures Value() == Deliver(old(Value()), t, k)
    {
      if t !in subs {
        return;
      }
      if !subs[t].ready {
        if |subs[t].pending| >= MAX_PENDING {
          closing := true;
          return;
        }
        subs := subs[t := subs[t].(pending := subs[t].pending + [k])];
        return;
      }
      if k in subs[t].replayed {
        return;
      }
      EnqueueLocked(t, k);
    }

    /** Queues the replay page and remembers its cursors. */
    method SendPage(t: Topic, backlog: seq<Cursor>, w: seq<nat>)
      requires t in subs && subs[t].replayed == {}
      modifies this
      ensures t in subs && Value() == WithSeen(EnqueueAll(old(Value()), t, backlog, w, 0), t, ToSet(backlog))
    {
      ghost var c := Value();
      assert c == WithSeen(c, t, {}) && ToSet(backlog[..0]) == {};
      for i := 0 to |backlog|
        invariant t in subs && Value() == WithSeen(EnqueueAll(c, t, backlog[..i], w, 0), t, ToSet(backlog[..i]))
      {
        var k := backlog[i];
        ghost var seen := ToSet(backlog[..i + 1]);
        OneMore(backlog, i);
        SetOneMore(backlog[..i], k);
        EnqueueOneMore(c, t, backlog[..i], k, w, 0);
        ghost var d := EnqueueAll(c, t, backlog[..i], w, 0);
        SeenAgain(d, t, ToSet(backlog[..i]), seen);
        SeenOne(d, Before(w, i), t, k, seen);
        subs := subs[t := subs[t].(replayed := subs[t].replayed + {k})];
        EnqueueBeside(t, k, Before(w, i));
      }
      assert backlog[..|backlog|] == backlog;
    }

    method SendOneHeld(t: Topic, k: Cursor, w: seq<nat>, n: nat) returns (next: nat)
      requires t in subs
      modifies this
      ensures t in subs && Value() == SendUnlessSeen(old(Value()), t, k, w, n)
      ensures next == if k in old(subs[t].replayed) then n else n + 1
    {
      if k in subs[t].replayed {
        return n;
      }
      EnqueueBeside(t, k, Before(w, n));
      return n + 1;
    }

    /** Queues what was held back, minus duplicates. */
    method SendHeld(t: Topic, w: seq<nat>, from: nat)
      requires t in subs
      modifies this
      ensures t in subs
      ensures Value() == EnqueueAll(old(Value()), t, Beyond(old(subs[t].pending), old(subs[t].replayed)), w, from)
    {
      ghost var c := Value();
      var pending := subs[t].pending;
      var n := from;
      assert pending[..0] == [] && Value() == HeldUpTo(c, t, pending, 0, w, from);
      for i := 0 to |pending|
        invariant t in subs && n == from + |Beyond(pending[..i], c.subs[t].replayed)|
        invariant Value() == HeldUpTo(c, t, pending, i, w, from)
      {
        HeldOneMore(c, t, pending, i, w, from);
        n := SendOneHeld(t, pending[i], w, n);
      }
      assert pending[..|pending|] == pending;
    }

    /** Last section of a subscription: the page, then what was held back and is not in it. The writer needs no lock:
        before the n-th frame is queued it sends Before(w, n). */
    method ReleaseHeld(t: Topic, backlog: seq<Cursor>, w: seq<nat>)
      requires t in subs && subs[t].replayed == {}
      modifies this
      ensures Value() == Release(old(Value()), t, backlog, w)
    {
      ghost var c := Value();
      ghost var seen := ToSet(backlog);
      ghost var more := Beyond(subs[t].pending, seen);
      SendPage(t, backlog, w);
      SendHeld(t, w, |backlog|);
      PageThenHeld(c, t, backlog, more, w, seen);
      assert Value() == WithSeen(EnqueueAll(c, t, backlog + more, w, 0), t, seen);
      subs := subs[t := subs[t].(pending := [], ready := true)];
    }
  }

  predicate Follows(topics: map<Topic, set<Client>>, c: Client, t: Topic) {
    t in topics && c in topics[t]
  }

  class Hub {
    var topics: map<Topic, set<Client>>

    constructor ()
      ensures topics == map[]
    {
      topics := map[];
    }

    method Register(c: Client, t: Topic)
      modifies this
      ensures forall d, u :: Follows(topics, d, u) <==> Follows(old(topics), d, u) || (d == c && u == t)
    {
      if t !in topics {
        topics := topics[t := {}];
      }
      topics := topics[t := topics[t] + {c}];
    }

    /** Leaving the last subscription of a topic removes the topic. */
    method Unregister(c: Client, t: Topic)
      modifies this
      ensures forall d, u :: Follows(topics, d, u) <==> Follows(old(topics), d, u) && !(d == c && u == t)
      ensures t in topics && old(t in topics && topics[t] != {}) ==> topics[t] != {}
    {
      if t in topics {
        var rest := topics[t] - {c};
        if rest == {} {
          assert forall d :: Follows(topics, d, t) ==> d == c by {
            assert forall d :: d in topics[t] && d != c ==> d in rest;
          }
          topics := topics - {t};
        } else {
          topics := topics[t := rest];
        }
      }
    }

    /** Publish, first half: who follows the topic now. */
    method Targets(t: Topic) returns (targets: set<Client>)
      ensures forall c :: c in targets <==> Follows(topics, c, t)
    {
      return if t in topics then topics[t] else {};
    }

    /** Publish, second half: each target once, in any order; nobody else is touched. */
    method DeliverTo(targets: set<Client>, e: Event)
      modifies targets
      ensures forall c :: c in targets ==> c.Value() == Deliver(old(c.Value()), e.topic, e.cursor)
    {
      var todo := targets;
      while todo != {}
        invariant todo <= targets
        invariant forall c :: c in targets ==>
          c.Value() == if c in todo then old(c.Value()) else Deliver(old(c.Value()), e.topic, e.cursor)
        decreases todo
      {
        var c :| c in todo;
        c.DeliverLive(e.topic, e.cursor);
        todo := todo - {c};
      }
    }
  }
}
