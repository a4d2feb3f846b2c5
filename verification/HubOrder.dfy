/** From the database to the browser: when events of a topic are committed and handed over in cursor order, the
    frames come in cursor order too, so the browser's high-water mark drops none of them. */
module HubOrder {
  import opened Lists
  import opened HubSteps
  import opened HubLaws
  import opened HubArrival
  import Live

  /** The topic's cursors grow from commit to commit, its events are handed over lowest first, and its replay
      fits the page. */
  predicate Orderly(s: Sys, step: Step, t: Topic) {
    match step
    case Commit(e) => e.topic == t ==> forall x :: x in s.log && x.topic == t ==> x.cursor < e.cursor
    case Hand(e) => e.topic == t ==> forall x :: x in s.waiting + s.flying && x.topic == t ==> e.cursor <= x.cursor
    case ReadPage =>
      s.pc == Registered(t) && t in s.conn.subs ==>
        s.conn.subs[t].after < 0 || |Missed(s.log, t, s.conn.subs[t].after)| <= PageSize(t)
    case _ => true
  }

  predicate AllOrderly(s: Sys, script: seq<Step>, t: Topic) {
    script != [] ==>
      var n := |script| - 1;
      AllOrderly(s, script[..n], t) && Orderly(After(s, script[..n]), script[n], t)
  }

  predicate Rising(ks: seq<Cursor>) { forall i, j :: 0 <= i < j < |ks| ==> ks[i] < ks[j] }

  /** What is held back rises, stays below what is on its way, and the page holds all there was to replay. */
  ghost predicate HeldSorted(s: Sys, t: Topic)
    requires t in s.conn.subs
  {
    var sub := s.conn.subs[t];
    && Rising(sub.pending)
    && (forall k, x :: OnItsWay(s, Event(t, k)) && x in sub.pending ==> x < k)
    && (s.pc.PageRead? && s.pc.topic == t ==>
          && Rising(s.pc.backlog)
          && forall k, x :: Event(t, k) in s.log && k > sub.after && k !in s.pc.backlog && x in s.pc.backlog ==> x < k)
  }

  /** What was sent, and what a release under way is still to send. */
  function Line(s: Sys, t: Topic): seq<Cursor>
    requires t in s.conn.subs
  {
    s.conn.subs[t].sent + if s.pc.Releasing? && s.pc.topic == t then s.pc.left else []
  }

  /** Above the cursor asked for, these frames rise and stay below what is still to come. */
  ghost predicate LineSorted(s: Sys, t: Topic, line: seq<Cursor>)
    requires t in s.conn.subs
  {
    var sub := s.conn.subs[t];
    && Live.InOrderAbove(line, sub.after)
    && forall k, x :: OnItsWay(s, Event(t, k)) && k > sub.after && k !in sub.replayed && x in line && x > sub.after
         ==> x < k
  }

  ghost predicate Sorted(s: Sys, t: Topic) {
    t in s.conn.subs ==>
      if s.conn.subs[t].ready || (s.pc.Releasing? && s.pc.topic == t) then LineSorted(s, t, Line(s, t))
      else HeldSorted(s, t)
  }

  lemma RisingOneMore(ks: seq<Cursor>, k: Cursor)
    requires Rising(ks) && forall x :: x in ks ==> x < k
    ensures Rising(ks + [k])
  {
    assert forall i :: 0 <= i < |ks| ==> ks[i] in ks;
  }

  lemma RisingCons(k: Cursor, ks: seq<Cursor>)
    requires Rising(ks) && forall x :: x in ks ==> k < x
    ensures Rising([k] + ks)
  {
    forall i, j | 0 <= i < j < |[k] + ks|
      ensures ([k] + ks)[i] < ([k] + ks)[j]
    {
      assert ks[j - 1] in ks;
    }
  }

  lemma InOrderOneMore(ks: seq<Cursor>, k: Cursor, after: int)
    requires Live.InOrderAbove(ks, after) && (k > after ==> forall x :: x in ks && x > after ==> x < k)
    ensures Live.InOrderAbove(ks + [k], after)
  {
    forall i, j | 0 <= i < j < |ks + [k]| && (ks + [k])[i] > after && (ks + [k])[j] > after
      ensures (ks + [k])[i] < (ks + [k])[j]
    {
      assert ks[i] in ks;
    }
  }

  lemma {:induction false} BeyondRises(pending: seq<Cursor>, seen: set<Cursor>)
    requires Rising(pending)
    ensures Rising(Beyond(pending, seen))
  {
    if pending != [] {
      BeyondRises(pending[1..], seen);
      if pending[0] !in seen {
        assert forall x :: x in pending[1..] ==> pending[0] < x;
        RisingCons(pending[0], Beyond(pending[1..], seen));
      }
    }
  }

  /** The page, then what was held back beyond it: in order above the cursor. */
  lemma PageThenHeldInOrder(page: seq<Cursor>, pending: seq<Cursor>, after: int)
    requires Rising(page) && Rising(pending)
    requires forall k, x :: k in pending && k > after && k !in page && x in page ==> x < k
    ensures Live.InOrderAbove(page + Beyond(pending, ToSet(page)), after)
  {
    var more := Beyond(pending, ToSet(page));
    var all := page + more;
    BeyondRises(pending, ToSet(page));
    forall i, j | 0 <= i < j < |all| && all[i] > after && all[j] > after
      ensures all[i] < all[j]
    {
      if i < |page| <= j {
        assert page[i] in page && more[j - |page|] in more;
      }
    }
  }

  /** In order stays in order when a frame goes missing. */
  lemma InOrderOneLess(a: seq<Cursor>, k: Cursor, b: seq<Cursor>, after: int)
    requires Live.InOrderAbove(a + ([k] + b), after)
    ensures Live.InOrderAbove(a + b, after)
  {
    var all, less := a + ([k] + b), a + b;
    forall i, j | 0 <= i < j < |less| && less[i] > after && less[j] > after
      ensures less[i] < less[j]
    {
      assert less[i] == all[if i < |a| then i else i + 1] && less[j] == all[if j < |a| then j else j + 1];
    }
  }

  predicate Sends(s: Sys, t: Topic) {
    t in s.conn.subs && (s.conn.subs[t].ready || (s.pc.Releasing? && s.pc.topic == t))
  }

  lemma LineIsCommitted(s: Sys, t: Topic, k: Cursor)
    requires Ok(s) && Sends(s, t) && k in Line(s, t)
    ensures Event(t, k) in s.log
  {
    assert SubOk(s, t);
    assert k in s.conn.subs[t].sent || (s.pc.Releasing? && s.pc.topic == t && k in s.pc.left);
  }

  lemma CommitSorts(s: Sys, e: Event, t: Topic)
    requires Ok(s) && Sorted(s, t) && Orderly(s, Commit(e), t)
    ensures Sorted(Next(s, Commit(e)), t)
  {
    if Sends(s, t) {
      forall x | x in Line(s, t)
        ensures Event(t, x) in s.log
      {
        LineIsCommitted(s, t, x);
      }
      assert Line(Next(s, Commit(e)), t) == Line(s, t);
    } else if t in s.conn.subs {
      assert SubOk(s, t) && HeldSorted(s, t);
    }
  }

  lemma SnapshotSorts(s: Sys, e: Event, t: Topic)
    requires Ok(s) && Sorted(s, t)
    ensures Sorted(Next(s, Snapshot(e)), t)
  {
    assert forall k :: OnItsWay(Next(s, Snapshot(e)), Event(t, k)) ==> OnItsWay(s, Event(t, k));
    if Sends(s, t) {
      assert Line(Next(s, Snapshot(e)), t) == Line(s, t);
    }
  }

  lemma HandSorts(s: Sys, e: Event, t: Topic)
    requires Ok(s) && Sorted(s, t) && Orderly(s, Hand(e), t)
    ensures Sorted(Next(s, Hand(e)), t)
  {
    if t in s.conn.subs && t == e.topic && e in s.flying && !s.pc.Releasing? {
      if s.conn.subs[t].ready {
        HandedSortsSent(s, Next(s, Hand(e)), t, e.cursor);
      } else {
        HandedSortsHeld(s, Next(s, Hand(e)), t, e.cursor);
      }
    }
  }

  lemma StillAbove(s: Sys, s': Sys, t: Topic, k: Cursor)
    requires Ok(s) && Event(t, k) in s.flying && Orderly(s, Hand(Event(t, k)), t) && s' == Next(s, Hand(Event(t, k)))
    requires !s.pc.Releasing?
    ensures forall x :: OnItsWay(s', Event(t, x)) ==> OnItsWay(s, Event(t, x)) && k < x
  {
    forall x | OnItsWay(s', Event(t, x))
      ensures OnItsWay(s, Event(t, x)) && k < x
    {
      assert Event(t, x) in s.waiting + s.flying && Event(t, x) != Event(t, k);
    }
  }

  lemma HandedSortsHeld(s: Sys, s': Sys, t: Topic, k: Cursor)
    requires Ok(s) && t in s.conn.subs && !s.conn.subs[t].ready && !s.pc.Releasing? && HeldSorted(s, t)
    requires Event(t, k) in s.flying && Orderly(s, Hand(Event(t, k)), t) && s' == Next(s, Hand(Event(t, k)))
    ensures t in s'.conn.subs && !s'.conn.subs[t].ready && HeldSorted(s', t)
  {
    StillAbove(s, s', t, k);
    assert OnItsWay(s, Event(t, k));
    RisingOneMore(s.conn.subs[t].pending, k);
  }

  lemma HandedSortsSent(s: Sys, s': Sys, t: Topic, k: Cursor)
    requires Ok(s) && t in s.conn.subs && s.conn.subs[t].ready && !s.pc.Releasing? && LineSorted(s, t, Line(s, t))
    requires Event(t, k) in s.flying && Orderly(s, Hand(Event(t, k)), t) && s' == Next(s, Hand(Event(t, k)))
    ensures t in s'.conn.subs && s'.conn.subs[t].ready && LineSorted(s', t, Line(s', t))
  {
    var sub := s.conn.subs[t];
    StillAbove(s, s', t, k);
    assert OnItsWay(s, Event(t, k)) && Line(s, t) == sub.sent && Line(s', t) == s'.conn.subs[t].sent;
    if k !in sub.replayed {
      InOrderOneMore(sub.sent, k, sub.after);
    }
  }

  lemma ReadSorts(s: Sys, t: Topic)
    requires Ok(s) && Sorted(s, t) && Orderly(s, ReadPage, t)
    ensures Sorted(Next(s, ReadPage), t)
  {
    if t in s.conn.subs {
      MissedOrdered(s.log, t, s.conn.subs[t].after);
    }
  }

  lemma LetGoSorts(s: Sys, t: Topic)
    requires Ok(s) && Sorted(s, t)
    ensures Sorted(Next(s, LetGo), t)
  {
    if s.pc.PageRead? && s.pc.topic in s.conn.subs && s.pc.topic == t {
      var sub, s' := s.conn.subs[t], Next(s, LetGo);
      assert SubOk(s, t) && HeldSorted(s, t);
      ToReleaseNoDup(s.pc.backlog, sub.pending);
      PageThenHeldInOrder(s.pc.backlog, sub.pending, sub.after);
      assert Line(s', t) == ToRelease(s.pc.backlog, sub.pending);
      assert forall k :: OnItsWay(s', Event(t, k)) ==> OnItsWay(s, Event(t, k)) && Event(t, k) in s.log;
    }
  }

  lemma ReleaseNextSorts(s: Sys, t: Topic)
    requires Ok(s) && Sorted(s, t)
    ensures Sorted(Next(s, ReleaseNext), t)
  {
    if s.pc.Releasing? && s.pc.topic in s.conn.subs && s.pc.topic == t {
      var sent, left, s' := s.conn.subs[t].sent, s.pc.left, Next(s, ReleaseNext);
      if left == [] {
        assert Line(s', t) == Line(s, t);
      } else if |s.conn.queue| < SEND_QUEUE {
        assert Line(s', t) == (sent + [left[0]]) + left[1..] == sent + left;
      } else {
        assert left == [left[0]] + left[1..];
        InOrderOneLess(sent, left[0], left[1..], s.conn.subs[t].after);
        assert Line(s', t) == sent + left[1..];
      }
      assert forall x :: x in Line(s', t) ==> x in Line(s, t);
    }
  }

  predicate Between(pc: Pc) { !pc.PageRead? && !pc.Releasing? }

  lemma UntouchedSorts(s: Sys, s': Sys, t: Topic)
    requires Sorted(s, t) && s'.log == s.log && s'.waiting == s.waiting && s'.flying == s.flying
    requires s'.pc == s.pc || (Between(s.pc) && Between(s'.pc))
    requires t in s'.conn.subs ==> t in s.conn.subs && s'.conn.subs[t] == s.conn.subs[t]
    ensures Sorted(s', t)
  {
    if t in s'.conn.subs {
      assert Line(s', t) == Line(s, t);
    }
  }

  lemma ControlSorts(s: Sys, step: Step, t: Topic)
    requires Sorted(s, t)
    requires step.Register? || step.ReadFails? || step.Leave? || step.Forget? || step.Write?
    ensures Sorted(Next(s, step), t)
  {
    UntouchedSorts(s, Next(s, step), t);
  }

  lemma OpenSorts(s: Sys, u: Topic, after: int, t: Topic)
    requires Sorted(s, t)
    ensures Sorted(Next(s, Open(u, after)), t)
  {
    if t != u || Next(s, Open(u, after)) == s {
      UntouchedSorts(s, Next(s, Open(u, after)), t);
    }
  }

  lemma StepSorts(s: Sys, step: Step, t: Topic)
    requires Ok(s) && Sorted(s, t) && Orderly(s, step, t)
    ensures Sorted(Next(s, step), t)
  {
    match step
    case Commit(e) => CommitSorts(s, e, t);
    case Snapshot(e) => SnapshotSorts(s, e, t);
    case Hand(e) => HandSorts(s, e, t);
    case ReadPage => ReadSorts(s, t);
    case LetGo => LetGoSorts(s, t);
    case ReleaseNext => ReleaseNextSorts(s, t);
    case Open(u, after) => OpenSorts(s, u, after, t);
    case _ => ControlSorts(s, step, t);
  }

  /** From any moment before the subscription: orderly publication gives orderly sending over every interleaving. */
  lemma {:induction false} AlwaysSorted(s: Sys, script: seq<Step>, t: Topic)
    requires Ok(s) && t !in s.conn.subs && AllOrderly(s, script, t)
    ensures Sorted(After(s, script), t)
  {
    if script != [] {
      var n := |script| - 1;
      AlwaysSorted(s, script[..n], t);
      AlwaysOk(s, script[..n]);
      StepSorts(After(s, script[..n]), script[n], t);
    }
  }

  lemma {:induction false} OrderlyPrefix(s: Sys, a: seq<Step>, b: seq<Step>, t: Topic)
    requires AllOrderly(s, a + b, t)
    ensures AllOrderly(s, a, t)
    decreases |b|
  {
    if b == [] {
      assert a + b == a;
    } else {
      assert (a + b)[..|a + b| - 1] == a + b[..|b| - 1];
      OrderlyPrefix(s, a, b[..|b| - 1], t);
    }
  }

  /** From `before` a subscription that has registered reads its page, and `later` happens: the script of it. */
  function Whole(before: seq<Step>, later: seq<Step>): seq<Step> { before + [ReadPage] + later }

  lemma WholeRuns(s: Sys, before: seq<Step>, later: seq<Step>)
    ensures After(s, Whole(before, later)) == After(Next(After(s, before), ReadPage), later)
  {
    AfterConcat(s, before + [ReadPage], later);
    AfterOneMore(s, before, ReadPage);
  }

  lemma FitsThePage(s: Sys, before: seq<Step>, later: seq<Step>, t: Topic)
    requires AllOrderly(s, Whole(before, later), t)
    requires var r := After(s, before); r.pc == Registered(t) && t in r.conn.subs && 0 <= r.conn.subs[t].after
    ensures var r := After(s, before); |Missed(r.log, t, r.conn.subs[t].after)| <= PageSize(t)
  {
    OrderlyPrefix(s, before + [ReadPage], later, t);
    assert (before + [ReadPage])[..|before|] == before;
    assert Orderly(After(s, before), ReadPage, t);
  }

  lemma SentInOrder(s: Sys, before: seq<Step>, later: seq<Step>, t: Topic, k: Cursor)
    requires Ok(s) && t !in s.conn.subs && AllOrderly(s, Whole(before, later), t) && StaysOn(later, t)
    requires var r := After(s, before); r.pc == Registered(t) && t in r.conn.subs && 0 <= r.conn.subs[t].after < k
    requires Through(After(s, Whole(before, later)), t, k)
    requires !DroppedAlong(Next(After(s, before), ReadPage), later, t, k)
    ensures var sub := After(s, Whole(before, later)).conn.subs[t];
      && sub.after == After(s, before).conn.subs[t].after && k in sub.sent && Live.InOrderAbove(sub.sent, sub.after)
  {
    var r, s' := After(s, before), After(s, Whole(before, later));
    AlwaysOk(s, before);
    WholeRuns(s, before, later);
    PageReadOk(r, t);
    FitsThePage(s, before, later, t);
    EveryEventExactlyOnce(r, later, t, k);
    StillServed(Next(r, ReadPage), later, t);
    AlwaysSorted(s, Whole(before, later), t);
    LineOfReady(s', t);
  }

  lemma LineOfReady(s: Sys, t: Topic)
    requires Sorted(s, t) && t in s.conn.subs && s.conn.subs[t].ready
    ensures Live.InOrderAbove(s.conn.subs[t].sent, s.conn.subs[t].after)
  {
    var line, sent := Line(s, t), s.conn.subs[t].sent;
    assert forall i :: 0 <= i < |sent| ==> line[i] == sent[i];
  }

  /** End to end: with orderly publication, a browser that subscribed from a cursor hands every later event of the
      topic to its handlers once the writer has sent what was queued, exactly once and in order, however commits,
      deliveries and the replay interleaved, unless a step dropped that event. */
  lemma BrowserSeesEverything(s: Sys, before: seq<Step>, later: seq<Step>, t: Topic, k: Cursor)
    requires Ok(s) && t !in s.conn.subs && AllOrderly(s, Whole(before, later), t) && StaysOn(later, t)
    requires var r := After(s, before); r.pc == Registered(t) && t in r.conn.subs && 0 <= r.conn.subs[t].after < k
    requires var s' := After(s, Whole(before, later)); Through(s', t, k) && Frames(s'.conn.queue, t) == []
    requires !DroppedAlong(Next(After(s, before), ReadPage), later, t, k)
    ensures var after := After(s, before).conn.subs[t].after;
      var handled := Live.Handled(Some(after), Arrived(After(s, Whole(before, later)).conn, t));
      k in handled && Live.Growing(Some(after), handled)
  {
    SentInOrder(s, before, later, t, k);
    var sub := After(s, Whole(before, later)).conn.subs[t];
    Live.AllHandled(sub.after, sub.sent, k);
    Live.NothingTwice(Some(sub.after), sub.sent);
  }
}
