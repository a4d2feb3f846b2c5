/** Every event with no gap and no duplicate: exactly when, for every interleaving, frames dropped or not. */
module HubLaws {
  import opened Lists
  import opened HubSteps

  predicate NoDup<T(==)>(xs: seq<T>) {
    forall i, j :: 0 <= i < j < |xs| ==> xs[i] != xs[j]
  }

  predicate OnItsWay(s: Sys, e: Event) { e in s.waiting || e in s.flying }

  /** Event k of the topic is committed, and will not come again unless the page had it. */
  predicate Settled(s: Sys, t: Topic, replayed: set<Cursor>, k: Cursor) {
    Event(t, k) in s.log && (k in replayed || !OnItsWay(s, Event(t, k)))
  }

  /** What a subscription's buffers say about the rest of the system. */
  predicate SubOk(s: Sys, t: Topic)
    requires t in s.conn.subs
  {
    var sub := s.conn.subs[t];
    && NoDup(sub.pending) && NoDup(sub.sent)
    && (forall k :: k in sub.pending ==> Settled(s, t, {}, k))
    && (forall k :: k in sub.sent ==> Settled(s, t, sub.replayed, k))
    && (forall k :: k in sub.replayed ==> Event(t, k) in s.log)
    && (sub.ready ==> sub.pending == [])
  }

  /** What is left of a release has not been sent. */
  predicate LeftOk(s: Sys) {
    s.pc.Releasing? && s.pc.topic in s.conn.subs ==>
      && NoDup(s.pc.left)
      && forall k :: k in s.pc.left ==>
           k !in s.conn.subs[s.pc.topic].sent && Settled(s, s.pc.topic, s.conn.subs[s.pc.topic].replayed, k)
  }

  predicate PcOk(s: Sys) {
    && (forall t :: t in s.conn.subs && !s.conn.subs[t].ready ==>
          (s.pc.Opened? || s.pc.Registered? || s.pc.PageRead? || s.pc.Releasing? || s.pc.Leaving?) && s.pc.topic == t)
    && (forall t :: t in s.conn.subs && !s.conn.subs[t].ready && !s.pc.Releasing? ==>
          s.conn.subs[t].sent == [] && s.conn.subs[t].replayed == {})
    && (forall t :: t in s.conn.subs && s.conn.subs[t].ready && s.pc != Leaving(t) ==> t in s.joined)
    && (s.pc.Opened? || s.pc.Registered? || s.pc.PageRead? || s.pc.Releasing? ==>
          s.pc.topic in s.conn.subs && !s.conn.subs[s.pc.topic].ready)
    && (s.pc.Registered? || s.pc.PageRead? || s.pc.Releasing? ==> s.pc.topic in s.joined)
    && (s.pc.PageRead? ==> NoDup(s.pc.backlog) && forall k :: k in s.pc.backlog ==> Event(s.pc.topic, k) in s.log)
  }

  /** What every interleaving keeps. */
  ghost predicate Ok(s: Sys) {
    && NoDup(s.log)
    && (forall e :: e in s.log ==> e.cursor > 0)
    && (forall e :: e in s.waiting || e in s.flying ==> e in s.log)
    && s.waiting !! s.flying
    && (forall t :: t in s.conn.subs ==> SubOk(s, t))
    && PcOk(s)
    && LeftOk(s)
  }

  // --- buffers ---

  lemma {:induction false} BeyondNoDup(pending: seq<Cursor>, replayed: set<Cursor>)
    requires NoDup(pending)
    ensures NoDup(Beyond(pending, replayed))
  {
    if pending != [] {
      BeyondNoDup(pending[1..], replayed);
    }
  }

  lemma ToReleaseNoDup(backlog: seq<Cursor>, pending: seq<Cursor>)
    requires NoDup(backlog) && NoDup(pending)
    ensures NoDup(ToRelease(backlog, pending))
    ensures forall k :: k in ToRelease(backlog, pending) <==> k in backlog || k in pending
  {
    var more := Beyond(pending, ToSet(backlog));
    BeyondNoDup(pending, ToSet(backlog));
    forall i, j | 0 <= i < j < |backlog + more|
      ensures (backlog + more)[i] != (backlog + more)[j]
    {
      if i < |backlog| <= j {
        assert backlog[i] in backlog && more[j - |backlog|] in more;
      }
    }
  }

  lemma {:induction false} MissedOrdered(log: seq<Event>, t: Topic, after: int)
    requires NoDup(log)
    ensures Ordered(Missed(log, t, after), Less)
  {
    if log != [] {
      MissedOrdered(log[1..], t, after);
      if log[0].topic == t && log[0].cursor > after {
        assert log[0] !in log[1..];
        InsertOrdered(Missed(log[1..], t, after), log[0].cursor, Less);
      }
    }
  }

  lemma PageNoDup(log: seq<Event>, t: Topic, after: int)
    requires NoDup(log)
    ensures NoDup(Page(log, t, after)) && forall k :: k in Page(log, t, after) ==> Event(t, k) in log && k > after
  {
    MissedOrdered(log, t, after);
    assert forall k :: k in Page(log, t, after) ==> k in Missed(log, t, after);
  }

  /** Which events a page holds: all there are after the cursor when they fit, oldest first; otherwise as many as fit,
      the newest for a feed read from the beginning and the oldest for every other reader. */
  lemma PageHolds(log: seq<Event>, t: Topic, after: int)
    requires NoDup(log)
    ensures var page := Page(log, t, after);
      && (after < 0 ==> page == [])
      && (forall i, j :: 0 <= i < j < |page| ==> page[i] < page[j])
      && |page| <= (if t.RunTopic? then 5000 else 1000)
      && (forall k :: k in page ==> Event(t, k) in log && k > after)
      && (after >= 0 && |page| < (if t.RunTopic? then 5000 else 1000) ==>
            forall k :: Event(t, k) in log && k > after ==> k in page)
      && (after >= 0 ==> forall k, x :: Event(t, k) in log && k > after && k !in page && x in page ==>
            if t.FeedTopic? && after == 0 then k < x else x < k)
  {
    MissedOrdered(log, t, after);
    var m, page := Missed(log, t, after), Page(log, t, after);
    assert forall k :: k in page ==> k in m;
    assert after >= 0 && |m| <= PageSize(t) ==> page == m;
    if after >= 0 && |m| > PageSize(t) {
      CutRises(m, if t.FeedTopic? && after == 0 then |m| - PageSize(t) else PageSize(t));
    }
  }

  /** Either part of a rising list is on its side of the cut. */
  lemma CutRises(m: seq<Cursor>, cut: nat)
    requires Ordered(m, Less) && cut <= |m|
    ensures Ordered(m[..cut], Less) && Ordered(m[cut..], Less)
    ensures forall k :: k in m ==> k in m[..cut] || k in m[cut..]
    ensures forall k, x :: k in m[..cut] && x in m[cut..] ==> k < x
  {
    assert m == m[..cut] + m[cut..];
    forall k, x | k in m[..cut] && x in m[cut..]
      ensures k < x
    {
      var i :| 0 <= i < cut && m[i] == k;
      var j :| cut <= j < |m| && m[j] == x;
      assert Less(m[i], m[j]);
    }
  }

  lemma EnqueuedOne(c: Conn, t: Topic, k: Cursor)
    requires t in c.subs
    ensures Enqueue(c, t, k).subs ==
              if |c.queue| < SEND_QUEUE then c.subs[t := c.subs[t].(sent := c.subs[t].sent + [k])] else c.subs
  {}

  // --- every step keeps the invariant ---

  /** Steps that only move events along leave every subscription sound. */
  lemma SubsKept(s: Sys, s': Sys)
    requires Ok(s) && s'.conn == s.conn
    requires forall e :: e in s.log ==> e in s'.log && (OnItsWay(s', e) ==> OnItsWay(s, e))
    ensures forall t :: t in s'.conn.subs ==> SubOk(s', t)
  {
    forall t | t in s'.conn.subs
      ensures SubOk(s', t)
    {
      assert SubOk(s, t);
    }
  }

  lemma CommitSnapshotKeep(s: Sys, step: Step)
    requires Ok(s) && (step.Commit? || step.Snapshot?)
    ensures Ok(Next(s, step))
  {
    SubsKept(s, Next(s, step));
  }

  lemma HandKeepsSub(s: Sys, e: Event)
    requires Ok(s) && e in s.flying && !s.pc.Releasing? && e.topic in s.conn.subs
    ensures e.topic in Next(s, Hand(e)).conn.subs && SubOk(Next(s, Hand(e)), e.topic)
  {
    var t := e.topic;
    assert SubOk(s, t);
    assert e.cursor !in s.conn.subs[t].pending;
    assert e.cursor in s.conn.subs[t].sent ==> e.cursor in s.conn.subs[t].replayed;
  }

  lemma HandKeepsOther(s: Sys, e: Event, t: Topic)
    requires t in s.conn.subs && SubOk(s, t) && (t != e.topic || e !in s.flying || s.pc.Releasing?)
    ensures t in Next(s, Hand(e)).conn.subs && SubOk(Next(s, Hand(e)), t)
  {}

  lemma HandKeeps(s: Sys, e: Event)
    requires Ok(s)
    ensures Ok(Next(s, Hand(e)))
  {
    var s' := Next(s, Hand(e));
    forall t | t in s'.conn.subs
      ensures SubOk(s', t)
    {
      if t == e.topic && e in s.flying && !s.pc.Releasing? {
        HandKeepsSub(s, e);
      } else {
        assert SubOk(s, t);
        HandKeepsOther(s, e, t);
      }
    }
  }

  /** Subscriptions other than t, and events, are as they were. */
  lemma OthersUntouched(s: Sys, s': Sys, t: Topic)
    requires Ok(s) && s'.log == s.log && s'.waiting == s.waiting && s'.flying == s.flying
    requires forall x :: x in s'.conn.subs && x != t ==> x in s.conn.subs && s'.conn.subs[x] == s.conn.subs[x]
    ensures forall x :: x in s'.conn.subs && x != t ==> SubOk(s', x)
  {
    forall x | x in s'.conn.subs && x != t
      ensures SubOk(s', x)
    {
      assert SubOk(s, x);
    }
  }

  lemma LetGoKeeps(s: Sys)
    requires Ok(s)
    ensures Ok(Next(s, LetGo))
  {
    if s.pc.PageRead? && s.pc.topic in s.conn.subs {
      var s', t := Next(s, LetGo), s.pc.topic;
      assert SubOk(s, t);
      ToReleaseNoDup(s.pc.backlog, s.conn.subs[t].pending);
      OthersUntouched(s, s', t);
      assert SubOk(s', t);
    }
  }

  lemma ReleaseNextKeeps(s: Sys)
    requires Ok(s)
    ensures Ok(Next(s, ReleaseNext))
  {
    if s.pc.Releasing? && s.pc.topic in s.conn.subs {
      var s', t := Next(s, ReleaseNext), s.pc.topic;
      assert SubOk(s, t);
      OthersUntouched(s, s', t);
      if s.pc.left != [] {
        FrameReleased(s, t);
      }
    }
  }

  /** One frame of a release. */
  lemma FrameReleased(s: Sys, t: Topic)
    requires Ok(s) && s.pc.Releasing? && s.pc.topic == t && t in s.conn.subs && s.pc.left != []
    ensures SubOk(Next(s, ReleaseNext), t) && LeftOk(Next(s, ReleaseNext))
  {
    var k, sub := s.pc.left[0], s.conn.subs[t];
    assert SubOk(s, t);
    EnqueuedOne(s.conn, t, k);
    assert k in s.pc.left && k !in s.pc.left[1..];
    assert forall x :: x in sub.sent + [k] ==> x in sub.sent || x == k;
  }

  /** Steps that leave buffers and events alone leave every subscription sound. */
  lemma BuffersUntouched(s: Sys, s': Sys)
    requires Ok(s) && s'.log == s.log && s'.waiting == s.waiting && s'.flying == s.flying
    requires forall t :: t in s'.conn.subs ==>
               (t in s.conn.subs && s'.conn.subs[t] == s.conn.subs[t]) ||
               (s'.conn.subs[t].pending == [] && s'.conn.subs[t].sent == []
                && !s'.conn.subs[t].ready && s'.conn.subs[t].replayed == {})
    ensures forall t :: t in s'.conn.subs ==> SubOk(s', t)
  {
    forall t | t in s'.conn.subs
      ensures SubOk(s', t)
    {
      assert t in s.conn.subs ==> SubOk(s, t);
    }
  }

  /** The goroutine's other sections change who is registered, not the buffers. */
  lemma RegistrationKeeps(s: Sys, step: Step)
    requires Ok(s) && (step.Register? || step.ReadFails? || step.Leave? || step.Write?)
    ensures Ok(Next(s, step))
  {
    BuffersUntouched(s, Next(s, step));
  }

  lemma OpenForgetKeeps(s: Sys, step: Step)
    requires Ok(s) && (step.Open? || step.Forget?)
    ensures Ok(Next(s, step))
  {
    BuffersUntouched(s, Next(s, step));
  }

  lemma ReadKeeps(s: Sys)
    requires Ok(s)
    ensures Ok(Next(s, ReadPage))
  {
    if s.pc.Registered? && s.pc.topic in s.conn.subs {
      PageNoDup(s.log, s.pc.topic, s.conn.subs[s.pc.topic].after);
    }
    BuffersUntouched(s, Next(s, ReadPage));
  }

  lemma StepKeeps(s: Sys, step: Step)
    requires Ok(s)
    ensures Ok(Next(s, step))
  {
    match step
    case Commit(_) => CommitSnapshotKeep(s, step);
    case Snapshot(_) => CommitSnapshotKeep(s, step);
    case Hand(e) => HandKeeps(s, e);
    case ReadPage => ReadKeeps(s);
    case LetGo => LetGoKeeps(s);
    case ReleaseNext => ReleaseNextKeeps(s);
    case Open(_, _) => OpenForgetKeeps(s, step);
    case Forget => OpenForgetKeeps(s, step);
    case Register => RegistrationKeeps(s, step);
    case ReadFails => RegistrationKeeps(s, step);
    case Leave(_) => RegistrationKeeps(s, step);
    case Write => RegistrationKeeps(s, step);
  }

  /** For every interleaving, frames dropped or not. */
  lemma {:induction false} AlwaysOk(s: Sys, script: seq<Step>)
    requires Ok(s)
    ensures Ok(After(s, script))
  {
    if script != [] {
      var n := |script| - 1;
      AlwaysOk(s, script[..n]);
      StepKeeps(After(s, script[..n]), script[n]);
    }
  }

  /** A connection follows only topics it has a subscription for, none it is leaving, and never more than 256. */
  ghost predicate Follows(s: Sys) {
    && (forall t :: t in s.joined ==> t in s.conn.subs)
    && (s.pc.Leaving? ==> s.pc.topic !in s.joined)
    && |s.conn.subs| <= 256
  }

  lemma OpensWithin(subs: map<Topic, Sub>, t: Topic, sub: Sub)
    requires t !in subs
    ensures |subs[t := sub]| == |subs| + 1
  {
    assert subs[t := sub].Keys == subs.Keys + {t};
  }

  lemma LeavesFewer(subs: map<Topic, Sub>, t: Topic)
    ensures |subs - {t}| <= |subs|
  {
    if t in subs {
      assert subs.Keys == (subs - {t}).Keys + {t};
    } else {
      assert subs - {t} == subs;
    }
  }

  lemma SameSize(c: Conn, d: Conn)
    requires d.subs.Keys == c.subs.Keys
    ensures |d.subs| == |c.subs|
  {
    assert |d.subs.Keys| == |c.subs.Keys|;
  }

  lemma StepFollows(s: Sys, step: Step)
    requires Ok(s) && Follows(s)
    ensures Follows(Next(s, step))
  {
    var v := Next(s, step);
    if step.Open? {
      if v != s {
        OpensWithin(s.conn.subs, step.topic, Sub(false, [], {}, step.after, []));
      }
    } else if step.Forget? {
      if v != s {
        LeavesFewer(s.conn.subs, s.pc.topic);
      }
    } else {
      assert v.conn.subs.Keys == s.conn.subs.Keys;
      SameSize(s.conn, v.conn);
    }
  }

  lemma {:induction false} AlwaysFollows(s: Sys, script: seq<Step>)
    requires Ok(s) && Follows(s)
    ensures Follows(After(s, script))
  {
    if script != [] {
      AlwaysFollows(s, script[..|script| - 1]);
      AlwaysOk(s, script[..|script| - 1]);
      StepFollows(After(s, script[..|script| - 1]), script[|script| - 1]);
    }
  }

  // --- what a subscription will get ---

  /** The subscription to t has read its page. */
  predicate Served(s: Sys, t: Topic) {
    && t in s.conn.subs && s.pc != Leaving(t)
    && (s.conn.subs[t].ready || ((s.pc.PageRead? || s.pc.Releasing?) && s.pc.topic == t))
  }

  /** Event k of topic t was sent, or is held back, in the page, left of a release, or on its way to this connection
      and not in the page already released. */
  predicate Promised(s: Sys, t: Topic, k: Cursor)
    requires t in s.conn.subs
  {
    var sub := s.conn.subs[t];
    || k in sub.sent
    || (OnItsWay(s, Event(t, k)) && k !in sub.replayed)
    || (s.pc.Releasing? && s.pc.topic == t && k in s.pc.left)
    || (!sub.ready && !s.pc.Releasing? && k in sub.pending)
    || (s.pc.PageRead? && s.pc.topic == t && k in s.pc.backlog)
  }

  /** The step drops event k: the send queue is full when the frame is to be queued, or too much is held back
      already when it is handed over and the page does not have it. */
  predicate Drops(s: Sys, step: Step, t: Topic, k: Cursor) {
    t in s.conn.subs &&
    match step
    case Hand(e) =>
      && e == Event(t, k) && e in s.flying && !s.pc.Releasing?
      && if s.conn.subs[t].ready then k !in s.conn.subs[t].replayed && |s.conn.queue| >= SEND_QUEUE
         else |s.conn.subs[t].pending| >= MAX_PENDING && !(s.pc.PageRead? && k in s.pc.backlog)
    case ReleaseNext =>
      s.pc.Releasing? && s.pc.topic == t && s.pc.left != [] && s.pc.left[0] == k && |s.conn.queue| >= SEND_QUEUE
    case _ => false
  }

  /** Some step of the script drops it. */
  predicate DroppedAlong(s: Sys, script: seq<Step>, t: Topic, k: Cursor) {
    script != [] &&
    var n := |script| - 1;
    DroppedAlong(s, script[..n], t, k) || Drops(After(s, script[..n]), script[n], t, k)
  }

  /** More is held back than fits, or the queue is full: the frame in hand finds no room. */
  predicate NoRoom(s: Sys, step: Step) {
    match step
    case Hand(e) =>
      && e in s.flying && !s.pc.Releasing? && e.topic in s.conn.subs
      && if s.conn.subs[e.topic].ready
         then e.cursor !in s.conn.subs[e.topic].replayed && |s.conn.queue| >= 8192
         else |s.conn.subs[e.topic].pending| >= 4096
    case ReleaseNext =>
      s.pc.Releasing? && s.pc.topic in s.conn.subs && s.pc.left != [] && |s.conn.queue| >= 8192
    case _ => false
  }

  /** The connection is given up exactly when a frame finds no room, and every frame that is dropped found none. */
  lemma GivesUpExactlyWhen(s: Sys, step: Step, t: Topic, k: Cursor)
    ensures Next(s, step).conn.closing <==> s.conn.closing || NoRoom(s, step)
    ensures Drops(s, step, t, k) ==> NoRoom(s, step)
  {}

  lemma ServedStays(s: Sys, step: Step, t: Topic)
    requires PcOk(s) && Served(s, t) && step != Leave(t)
    ensures Served(Next(s, step), t) && Next(s, step).conn.subs[t].after == s.conn.subs[t].after
  {}

  /** No step but a drop makes or breaks a promise about an event that is already committed, and every later event is
      promised. */
  lemma PromiseKept(s: Sys, step: Step, t: Topic, k: Cursor)
    requires Ok(s) && Served(s, t) && step != Leave(t) && Event(t, k) in Next(s, step).log
    ensures Served(Next(s, step), t)
    ensures Promised(Next(s, step), t, k)
       <==> (Event(t, k) in s.log ==> Promised(s, t, k)) && !Drops(s, step, t, k)
  {
    ServedStays(s, step, t);
    assert SubOk(s, t);
    if step.LetGo? && s.pc.PageRead? && s.pc.topic in s.conn.subs {
      ToReleaseNoDup(s.pc.backlog, s.conn.subs[s.pc.topic].pending);
    } else if step.Hand? {
      HandPromises(s, step.event, t, k);
    } else if step.ReleaseNext? {
      ReleasePromises(s, t, k);
    }
  }

  lemma HandPromises(s: Sys, e: Event, t: Topic, k: Cursor)
    requires Ok(s) && Served(s, t) && Event(t, k) in s.log && t in Next(s, Hand(e)).conn.subs
    ensures Promised(Next(s, Hand(e)), t, k) <==> Promised(s, t, k) && !Drops(s, Hand(e), t, k)
  {
    assert SubOk(s, t);
    if e == Event(t, k) && e in s.flying && !s.pc.Releasing? {
      var s' := Next(s, Hand(e));
      assert !OnItsWay(s', e) && Promised(s, t, k) == (k in s.conn.subs[t].sent || k !in s.conn.subs[t].replayed);
    }
  }

  lemma ReleasePromises(s: Sys, t: Topic, k: Cursor)
    requires Ok(s) && Served(s, t) && Event(t, k) in s.log && t in Next(s, ReleaseNext).conn.subs
    ensures Promised(Next(s, ReleaseNext), t, k) <==> Promised(s, t, k) && !Drops(s, ReleaseNext, t, k)
  {
    assert SubOk(s, t);
    if s.pc.Releasing? && s.pc.topic == t && s.pc.left != [] {
      var x, rest := s.pc.left[0], s.pc.left[1..];
      assert s.pc.left == [x] + rest && x !in rest;
      assert k in s.pc.left <==> k == x || k in rest;
    }
  }

  ghost predicate StaysOn(script: seq<Step>, t: Topic) { forall i :: 0 <= i < |script| ==> script[i] != Leave(t) }

  /** Only what is committed can be dropped. */
  lemma {:induction false} DroppedIsCommitted(s: Sys, script: seq<Step>, t: Topic, k: Cursor)
    requires Ok(s) && DroppedAlong(s, script, t, k)
    ensures Event(t, k) in After(s, script).log
  {
    var n := |script| - 1;
    if DroppedAlong(s, script[..n], t, k) {
      DroppedIsCommitted(s, script[..n], t, k);
    } else {
      AlwaysOk(s, script[..n]);
      DropIsCommitted(After(s, script[..n]), script[n], t, k);
    }
  }

  lemma DropIsCommitted(s: Sys, step: Step, t: Topic, k: Cursor)
    requires Ok(s) && Drops(s, step, t, k)
    ensures Event(t, k) in Next(s, step).log
  {
    assert SubOk(s, t);
    assert step.ReleaseNext? ==> k in s.pc.left;
  }

  lemma {:induction false} PromiseKeptAlong(s: Sys, script: seq<Step>, t: Topic, k: Cursor)
    requires Ok(s) && Served(s, t) && StaysOn(script, t) && Event(t, k) in After(s, script).log
    ensures Ok(After(s, script)) && Served(After(s, script), t)
    ensures Promised(After(s, script), t, k)
       <==> (Event(t, k) in s.log ==> Promised(s, t, k)) && !DroppedAlong(s, script, t, k)
  {
    if script != [] {
      var n := |script| - 1;
      var mid := After(s, script[..n]);
      AlwaysOk(s, script);
      AlwaysOk(s, script[..n]);
      StillServed(s, script[..n], t);
      if Event(t, k) in mid.log {
        PromiseKeptAlong(s, script[..n], t, k);
      } else {
        LogGrows(s, script[..n]);
        if DroppedAlong(s, script[..n], t, k) {
          DroppedIsCommitted(s, script[..n], t, k);
        }
      }
      PromiseKept(mid, script[n], t, k);
    }
  }

  lemma {:induction false} StillServed(s: Sys, script: seq<Step>, t: Topic)
    requires Ok(s) && Served(s, t) && StaysOn(script, t)
    ensures Served(After(s, script), t) && After(s, script).conn.subs[t].after == s.conn.subs[t].after
  {
    if script != [] {
      var n := |script| - 1;
      StillServed(s, script[..n], t);
      AlwaysOk(s, script[..n]);
      ServedStays(After(s, script[..n]), script[n], t);
    }
  }

  lemma {:induction false} LogGrows(s: Sys, script: seq<Step>)
    ensures forall e :: e in s.log ==> e in After(s, script).log
  {
    if script != [] {
      LogGrows(s, script[..|script| - 1]);
    }
  }

  lemma {:induction false} Once(ks: seq<Cursor>, k: Cursor)
    requires NoDup(ks)
    ensures multiset(ks)[k] == if k in ks then 1 else 0
  {
    if ks != [] {
      assert ks == [ks[0]] + ks[1..];
      assert ks[0] !in ks[1..];
      Once(ks[1..], k);
    }
  }

  // --- the main results ---

  /** The subscription is ready, and event k is committed and no longer on its way. */
  predicate Through(s: Sys, t: Topic, k: Cursor) {
    Event(t, k) in s.log && !OnItsWay(s, Event(t, k)) && t in s.conn.subs && s.conn.subs[t].ready
  }

  /** Whatever happens between reading the page and now, once event k is no longer on its way it has been sent exactly
      once if it was promised when the page was read, or committed since, and no step dropped it; otherwise never. */
  lemma SentExactlyOncePromised(s: Sys, script: seq<Step>, t: Topic, k: Cursor)
    requires Ok(s) && Served(s, t) && StaysOn(script, t) && Through(After(s, script), t, k)
    ensures multiset(After(s, script).conn.subs[t].sent)[k] ==
              if (Event(t, k) in s.log ==> Promised(s, t, k)) && !DroppedAlong(s, script, t, k) then 1 else 0
  {
    var s' := After(s, script);
    PromiseKeptAlong(s, script, t, k);
    assert SubOk(s', t);
    assert !(s'.pc.Releasing? && s'.pc.topic == t) && !(s'.pc.PageRead? && s'.pc.topic == t);
    Once(s'.conn.subs[t].sent, k);
  }

  /** The subscription is registered and about to read its page. */
  ghost predicate AboutToRead(r: Sys, t: Topic) { Ok(r) && r.pc == Registered(t) && t in r.conn.subs }

  lemma PageReadOk(r: Sys, t: Topic)
    requires AboutToRead(r, t)
    ensures var s := Next(r, ReadPage);
      && Ok(s) && Served(s, t) && s.log == r.log && s.conn == r.conn && s.waiting == r.waiting && s.flying == r.flying
      && s.pc == PageRead(t, Page(r.log, t, r.conn.subs[t].after))
  {
    ReadKeeps(r);
  }

  /** No gap and no duplicate: when the backlog fits one replay page, every event after the subscription's cursor is
      sent exactly once, replayed and live frames together, unless a step dropped it, and then never. */
  lemma EveryEventExactlyOnce(r: Sys, later: seq<Step>, t: Topic, k: Cursor)
    requires AboutToRead(r, t) && StaysOn(later, t) && Through(After(Next(r, ReadPage), later), t, k)
    requires 0 <= r.conn.subs[t].after < k && |Missed(r.log, t, r.conn.subs[t].after)| <= PageSize(t)
    ensures multiset(After(Next(r, ReadPage), later).conn.subs[t].sent)[k] ==
              if DroppedAlong(Next(r, ReadPage), later, t, k) then 0 else 1
  {
    PageReadOk(r, t);
    SentExactlyOncePromised(Next(r, ReadPage), later, t, k);
  }

  /** An event that was committed when the page was read is lost for this subscription if and only if it fell off the
      page after it had already passed by (neither held back nor still on its way), or a later step dropped it. */
  lemma GapExactlyWhen(r: Sys, later: seq<Step>, t: Topic, k: Cursor)
    requires AboutToRead(r, t) && Event(t, k) in r.log
    requires StaysOn(later, t) && Through(After(Next(r, ReadPage), later), t, k)
    ensures k !in After(Next(r, ReadPage), later).conn.subs[t].sent <==>
              || (k !in Page(r.log, t, r.conn.subs[t].after) && k !in r.conn.subs[t].pending
                  && !OnItsWay(r, Event(t, k)))
              || DroppedAlong(Next(r, ReadPage), later, t, k)
  {
    assert SubOk(r, t);
    PageReadOk(r, t);
    SentExactlyOncePromised(Next(r, ReadPage), later, t, k);
    AlwaysOk(Next(r, ReadPage), later);
    Once(After(Next(r, ReadPage), later).conn.subs[t].sent, k);
  }

  // --- from registering to reading the page ---

  /** The subscription is registered and has not read its page. */
  ghost predicate Waiting(s: Sys, script: seq<Step>, t: Topic) {
    forall n :: 0 <= n <= |script| ==> After(s, script[..n]).pc == Registered(t)
  }

  /** Not committed yet, on its way, or held back. */
  predicate ToBeHeld(s: Sys, t: Topic, k: Cursor)
    requires t in s.conn.subs
  {
    Event(t, k) !in s.log || OnItsWay(s, Event(t, k)) || k in s.conn.subs[t].pending
  }

  lemma HoldsOn(s: Sys, step: Step, t: Topic, k: Cursor)
    requires Ok(s) && s.pc == Registered(t) && t in s.conn.subs && Next(s, step).pc == Registered(t)
    ensures t in Next(s, step).conn.subs && Next(s, step).conn.subs[t].after == s.conn.subs[t].after
    ensures ToBeHeld(Next(s, step), t, k) <==> ToBeHeld(s, t, k) && !Drops(s, step, t, k)
  {
    assert SubOk(s, t);
  }

  /** What is to be held back stays so, exactly while no step drops it. */
  lemma {:induction false} HoldsOnAlong(s: Sys, script: seq<Step>, t: Topic, k: Cursor)
    requires Ok(s) && t in s.conn.subs && Waiting(s, script, t) && ToBeHeld(s, t, k)
    ensures var r := After(s, script);
      && Ok(r) && t in r.conn.subs && r.conn.subs[t].after == s.conn.subs[t].after
      && (ToBeHeld(r, t, k) <==> !DroppedAlong(s, script, t, k))
  {
    if script != [] {
      var n := |script| - 1;
      assert script[..n + 1] == script;
      assert forall m :: 0 <= m <= n ==> script[..n][..m] == script[..m];
      HoldsOnAlong(s, script[..n], t, k);
      assert After(s, script[..n + 1]).pc == Registered(t);
      HoldsOn(After(s, script[..n]), script[n], t, k);
      AlwaysOk(s, script);
    }
  }

  /** A live-only subscription (no cursor) is sent every event that was not committed, or still on its way, when it was
      registered, exactly once, unless a step dropped it; `mid` is what happens until the page step. */
  lemma LiveOnlyExactlyOnce(r: Sys, mid: seq<Step>, later: seq<Step>, t: Topic, k: Cursor)
    requires Ok(r) && t in r.conn.subs && r.conn.subs[t].after < 0
    requires Waiting(r, mid, t) && (Event(t, k) !in r.log || OnItsWay(r, Event(t, k)))
    requires StaysOn(later, t) && Through(After(Next(After(r, mid), ReadPage), later), t, k)
    ensures multiset(After(Next(After(r, mid), ReadPage), later).conn.subs[t].sent)[k] ==
              if DroppedAlong(r, mid, t, k) || DroppedAlong(Next(After(r, mid), ReadPage), later, t, k) then 0 else 1
  {
    HoldsOnAlong(r, mid, t, k);
    assert mid[..|mid|] == mid;
    var q := After(r, mid);
    assert SubOk(q, t);
    PageReadOk(q, t);
    SentExactlyOncePromised(Next(q, ReadPage), later, t, k);
  }
}
