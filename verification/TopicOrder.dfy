/** Putting a transaction's events in cursor order, topic by topic, without moving topics among one another. */
module TopicOrder {
  import opened Lists

  datatype Event = Event(topic: string, cursor: int, data: nat)

  predicate NoLater(a: Event, b: Event) { a.cursor <= b.cursor }

  /** A stable sort by cursor: each event goes after all those with a cursor no later than its own. */
  function StableSort(xs: seq<Event>): (ys: seq<Event>)
    ensures |ys| == |xs|
  {
    if xs == [] then [] else Insert(StableSort(xs[..|xs| - 1]), xs[|xs| - 1], NoLater)
  }

  /** The events of one topic, in the order they were emitted. */
  function OfTopic(xs: seq<Event>, t: string): seq<Event> {
    if xs == [] then []
    else
      var n := |xs| - 1;
      OfTopic(xs[..n], t) + if xs[n].topic == t then [xs[n]] else []
  }

  function OfCursor(xs: seq<Event>, k: int): seq<Event> {
    if xs == [] then [] else (if xs[0].cursor == k then [xs[0]] else []) + OfCursor(xs[1..], k)
  }

  /** The positions of a topic. */
  function Slots(xs: seq<Event>, t: string): seq<nat> {
    if xs == [] then []
    else
      var n := |xs| - 1;
      Slots(xs[..n], t) + if xs[n].topic == t then [n] else []
  }

  /** Slot j holds the topic's event j, and every event of the topic has its slot. */
  lemma {:induction false} SlotsMatch(xs: seq<Event>, t: string)
    ensures |Slots(xs, t)| == |OfTopic(xs, t)|
    ensures forall j :: 0 <= j < |Slots(xs, t)| ==>
              Slots(xs, t)[j] < |xs| && xs[Slots(xs, t)[j]] == OfTopic(xs, t)[j] && OfTopic(xs, t)[j].topic == t
  {
    if xs != [] {
      SlotsMatch(xs[..|xs| - 1], t);
    }
  }

  lemma {:induction false} SlotsRise(xs: seq<Event>, t: string)
    ensures forall i, j :: 0 <= i < j < |Slots(xs, t)| ==> Slots(xs, t)[i] < Slots(xs, t)[j]
  {
    if xs != [] {
      SlotsRise(xs[..|xs| - 1], t);
      SlotsMatch(xs[..|xs| - 1], t);
    }
  }

  lemma {:induction false} SlotOf(xs: seq<Event>, i: nat) returns (j: nat)
    requires i < |xs|
    ensures j < |Slots(xs, xs[i].topic)| && Slots(xs, xs[i].topic)[j] == i
  {
    var n := |xs| - 1;
    if i == n {
      j := |Slots(xs[..n], xs[i].topic)|;
    } else {
      j := SlotOf(xs[..n], i);
    }
  }

  /** The same topics at the same positions have the same slots. */
  lemma {:induction false} SameSlots(xs: seq<Event>, ys: seq<Event>, t: string)
    requires |xs| == |ys| && forall i :: 0 <= i < |xs| ==> xs[i].topic == ys[i].topic
    ensures Slots(xs, t) == Slots(ys, t)
  {
    if xs != [] {
      SameSlots(xs[..|xs| - 1], ys[..|ys| - 1], t);
    }
  }

  /** The result: topics stay where they were, and each topic's events are its own, stably sorted. */
  ghost predicate InOrder(events: seq<Event>, out: seq<Event>) {
    && |out| == |events|
    && (forall i :: 0 <= i < |events| ==> out[i].topic == events[i].topic)
    && (forall t :: OfTopic(out, t) == StableSort(OfTopic(events, t)))
  }

  /** Topic t's slots of out hold its sorted events. */
  ghost predicate Written(events: seq<Event>, out: seq<Event>, t: string)
    requires |out| == |events|
  {
    && |Slots(events, t)| == |StableSort(OfTopic(events, t))|
    && forall j :: 0 <= j < |Slots(events, t)| ==>
         Slots(events, t)[j] < |out| && out[Slots(events, t)[j]] == StableSort(OfTopic(events, t))[j]
  }

  lemma WrittenIsSorted(events: seq<Event>, out: seq<Event>, t: string)
    requires |out| == |events| && (forall i :: 0 <= i < |events| ==> out[i].topic == events[i].topic)
      && Written(events, out, t)
    ensures OfTopic(out, t) == StableSort(OfTopic(events, t))
  {
    SameSlots(events, out, t);
    SlotsMatch(out, t);
  }

  /** Other topics' slots are other places. */
  lemma StaysWritten(events: seq<Event>, out: seq<Event>, out': seq<Event>, t: string)
    requires |out| == |out'| == |events| && Written(events, out, t)
    requires forall i :: 0 <= i < |events| && events[i].topic == t ==> out'[i] == out[i]
    ensures Written(events, out', t)
  {
    SlotsMatch(events, t);
  }

  function At(slots: map<string, seq<nat>>, t: string): seq<nat> {
    if t in slots then slots[t] else []
  }

  lemma SlotsOneMore(events: seq<Event>, i: nat, t: string)
    requires i < |events|
    ensures Slots(events[..i + 1], t) == Slots(events[..i], t) + if events[i].topic == t then [i] else []
  {
    assert events[..i + 1][..i] == events[..i];
  }

  method SlotsByTopic(events: seq<Event>) returns (slots: map<string, seq<nat>>)
    ensures forall t :: At(slots, t) == Slots(events, t)
  {
    slots := map[];
    for i := 0 to |events|
      invariant forall t :: At(slots, t) == Slots(events[..i], t)
    {
      var t := events[i].topic;
      ghost var was := slots;
      slots := slots[t := (if t in slots then slots[t] else []) + [i]];
      forall u ensures At(slots, u) == Slots(events[..i + 1], u) {
        SlotsOneMore(events, i, u);
        assert At(was, u) == Slots(events[..i], u);
        if u != t {
          assert At(slots, u) == At(was, u);
        }
      }
    }
    assert events[..|events|] == events;
  }

  method InTopicOrder(events: seq<Event>) returns (out: array<Event>)
    ensures fresh(out) && InOrder(events, out[..])
  {
    var slots := SlotsByTopic(events);
    out := new Event[|events|](i requires 0 <= i < |events| => events[i]);
    var todo := slots.Keys;
    while todo != {}
      invariant todo <= slots.Keys && out.Length == |events|
      invariant forall i :: 0 <= i < |events| ==> out[i].topic == events[i].topic
      invariant forall t :: t in slots && t !in todo ==> Written(events, out[..], t)
      decreases todo
    {
      var t :| t in todo;
      ghost var was := out[..];
      WriteTopic(events, t, slots[t], out);
      forall u | u in slots && u !in todo - {t} && u != t
        ensures Written(events, out[..], u)
      {
        StaysWritten(events, was, out[..], u);
      }
      todo := todo - {t};
    }
    forall t
      ensures OfTopic(out[..], t) == StableSort(OfTopic(events, t))
    {
      SlotsMatch(events, t);
      WrittenIsSorted(events, out[..], t);
    }
  }

  /** Sorts one topic's events and writes them into its slots. */
  method WriteTopic(events: seq<Event>, t: string, idx: seq<nat>, out: array<Event>)
    requires out.Length == |events| && idx == Slots(events, t)
    requires forall i :: 0 <= i < |events| ==> out[i].topic == events[i].topic
    modifies out
    ensures forall i :: 0 <= i < |events| ==> out[i].topic == events[i].topic
    ensures forall i :: 0 <= i < |events| && events[i].topic != t ==> out[i] == old(out[i])
    ensures Written(events, out[..], t)
  {
    SlotsMatch(events, t);
    var group := seq(|idx|, j requires 0 <= j < |idx| && idx[j] < |events| => events[idx[j]]);
    assert group == OfTopic(events, t);
    SortKeepsElements(group);
    var sorted := StableSort(group);
    forall j | 0 <= j < |sorted| ensures sorted[j].topic == t {
      assert sorted[j] in group;
    }
    FillSlots(events, t, idx, sorted, out);
  }

  /** Writes the sorted events of topic t into its slots. */
  method FillSlots(events: seq<Event>, t: string, idx: seq<nat>, sorted: seq<Event>, out: array<Event>)
    requires out.Length == |events| && idx == Slots(events, t) && |sorted| == |idx|
    requires forall j :: 0 <= j < |idx| ==> idx[j] < |events| && events[idx[j]].topic == t && sorted[j].topic == t
    requires forall i :: 0 <= i < |events| ==> out[i].topic == events[i].topic
    modifies out
    ensures forall i :: 0 <= i < |events| ==> out[i].topic == events[i].topic
    ensures forall i :: 0 <= i < |events| && events[i].topic != t ==> out[i] == old(out[i])
    ensures forall j :: 0 <= j < |idx| ==> out[idx[j]] == sorted[j]
  {
    SlotsRise(events, t);
    for j := 0 to |idx|
      invariant forall i :: 0 <= i < |events| ==> out[i].topic == events[i].topic
      invariant forall i :: 0 <= i < |events| && events[i].topic != t ==> out[i] == old(out[i])
      invariant forall l :: 0 <= l < j ==> out[idx[l]] == sorted[l]
    {
      out[idx[j]] := sorted[j];
    }
  }

  // --- what the stable sort promises ---

  lemma {:induction false} SortKeepsElements(xs: seq<Event>)
    ensures multiset(StableSort(xs)) == multiset(xs)
    ensures forall e :: e in StableSort(xs) <==> e in xs
  {
    if xs != [] {
      var front, last := xs[..|xs| - 1], xs[|xs| - 1];
      SortKeepsElements(front);
      assert xs == front + [last];
      var s := StableSort(front);
      var k := Place(s, last, NoLater);
      assert s == s[..k] + s[k..];
    }
  }

  lemma {:induction false} SortOrders(xs: seq<Event>)
    ensures Ordered(StableSort(xs), NoLater)
  {
    if xs != [] {
      SortOrders(xs[..|xs| - 1]);
      InsertOrdered(StableSort(xs[..|xs| - 1]), xs[|xs| - 1], NoLater);
    }
  }

  /** Events with the same cursor keep the order they were emitted in. */
  lemma {:induction false} SortIsStable(xs: seq<Event>, k: int)
    ensures OfCursor(StableSort(xs), k) == OfCursor(xs, k)
  {
    if xs != [] {
      var front, last := xs[..|xs| - 1], xs[|xs| - 1];
      SortIsStable(front, k);
      SortOrders(front);
      assert xs == front + [last];
      OfCursorConcat(front, [last], k);
      InsertIsStable(StableSort(front), last, k);
    }
  }

  lemma InsertIsStable(s: seq<Event>, x: Event, k: int)
    requires Ordered(s, NoLater)
    ensures OfCursor(Insert(s, x, NoLater), k) == OfCursor(s, k) + OfCursor([x], k)
  {
    var p := Place(s, x, NoLater);
    if x.cursor == k {
      forall e | e in s[p..]
        ensures e.cursor > k
      {
        LaterThanPlace(s, x, e);
      }
      LaterOnly(s[p..], k);
    }
    InsertConcat(s[..p], s[p..], x, k);
    assert s == s[..p] + s[p..];
  }

  lemma LaterThanPlace(s: seq<Event>, x: Event, e: Event)
    requires Ordered(s, NoLater) && e in s[Place(s, x, NoLater)..]
    ensures e.cursor > x.cursor
  {
    var p := Place(s, x, NoLater);
    var i :| p <= i < |s| && s[i] == e;
    assert i == p || NoLater(s[p], s[i]);
  }

  lemma InsertConcat(a: seq<Event>, b: seq<Event>, x: Event, k: int)
    requires x.cursor == k ==> OfCursor(b, k) == []
    ensures OfCursor(a + [x] + b, k) == OfCursor(a + b, k) + OfCursor([x], k)
  {
    OfCursorConcat(a, b, k);
    OfCursorConcat(a + [x], b, k);
    OfCursorConcat(a, [x], k);
  }

  lemma {:induction false} OfCursorConcat(a: seq<Event>, b: seq<Event>, k: int)
    ensures OfCursor(a + b, k) == OfCursor(a, k) + OfCursor(b, k)
  {
    if a == [] {
      assert a + b == b;
    } else {
      var first := if a[0].cursor == k then [a[0]] else [];
      OfCursorConcat(a[1..], b, k);
      calc {
        OfCursor(a + b, k);
        { assert (a + b)[0] == a[0] && (a + b)[1..] == a[1..] + b; }
        first + OfCursor(a[1..] + b, k);
        first + (OfCursor(a[1..], k) + OfCursor(b, k));
        (first + OfCursor(a[1..], k)) + OfCursor(b, k);
      }
    }
  }

  lemma {:induction false} LaterOnly(xs: seq<Event>, k: int)
    requires forall e :: e in xs ==> e.cursor > k
    ensures OfCursor(xs, k) == []
  {
    if xs != [] {
      assert xs[0] in xs;
      LaterOnly(xs[1..], k);
    }
  }

  /** Topic by topic the same events, so altogether the same events. */
  lemma SameEvents(events: seq<Event>, out: seq<Event>)
    requires InOrder(events, out)
    ensures multiset(out) == multiset(events)
  {
    forall e: Event
      ensures multiset(out)[e] == multiset(events)[e]
    {
      CountOfTopic(events, e);
      CountOfTopic(out, e);
      SortKeepsElements(OfTopic(events, e.topic));
    }
  }

  lemma {:induction false} CountOfTopic(xs: seq<Event>, e: Event)
    ensures multiset(xs)[e] == multiset(OfTopic(xs, e.topic))[e]
  {
    if xs != [] {
      var n := |xs| - 1;
      assert xs == xs[..n] + [xs[n]];
      CountOfTopic(xs[..n], e);
    }
  }

  /** Two events of one topic come out in cursor order. */
  lemma TopicsRise(events: seq<Event>, out: seq<Event>, i: nat, j: nat)
    requires InOrder(events, out) && i < j < |out| && out[i].topic == out[j].topic
    ensures out[i].cursor <= out[j].cursor
  {
    var t := out[i].topic;
    var a := SlotOf(out, i);
    var b := SlotOf(out, j);
    SlotsMatch(out, t);
    SlotsRise(out, t);
    SortOrders(OfTopic(events, t));
    assert a < b;
    assert NoLater(OfTopic(out, t)[a], OfTopic(out, t)[b]);
  }
}
