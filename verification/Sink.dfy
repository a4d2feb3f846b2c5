/** The sink that delivers an agent's events in order, merging neighbouring pieces of streamed text. */
module Sink {
  import opened Lists

  const COALESCE_BYTES: nat := 8192

  datatype Kind = Token | Thought | OtherKind(name: string)

  /** Text is an event whose payload is just a text; Rich is any other payload. */
  datatype Event = Text(kind: Kind, text: string) | Rich(kind: Kind, payload: nat)

  /** What the loop wakes up for. The timer fires at any time; without a window it is not listened to. */
  datatype Wake = Arrives(event: Event) | TimerFires

  predicate Streamed(e: Event) {
    e.Text? && (e.kind == Token || e.kind == Thought)
  }

  // --- what the loop does, event by event ---

  /** pend: the text held back. out: everything sent so far. */
  datatype Loop = Loop(pend: Option<Event>, out: seq<Event>)

  const EMPTY := Loop(None, [])

  function Flush(l: Loop): Loop {
    Loop(None, if l.pend.Some? then l.out + [l.pend.value] else l.out)
  }

  function Wakes(l: Loop, w: Wake): Loop {
    match w
    case TimerFires => Flush(l)
    case Arrives(ev) =>
      if l.pend.Some? && l.pend.value.Text? && l.pend.value.kind == ev.kind && ev.Text? then
        var more := Text(ev.kind, l.pend.value.text + ev.text);
        if |more.text| >= COALESCE_BYTES then Flush(Loop(Some(more), l.out)) else Loop(Some(more), l.out)
      else if Streamed(ev) then Loop(Some(ev), Flush(l).out)
      else Loop(None, Flush(l).out + [ev])
  }

  function Looped(schedule: seq<Wake>): Loop {
    if schedule == [] then EMPTY else Wakes(Looped(schedule[..|schedule| - 1]), schedule[|schedule| - 1])
  }

  /** Everything sent by the time the loop has returned: closing flushes what is left. */
  function Output(schedule: seq<Wake>): seq<Event> {
    Flush(Looped(schedule)).out
  }

  function Arrived(schedule: seq<Wake>): seq<Event> {
    if schedule == [] then []
    else
      var w := schedule[|schedule| - 1];
      Arrived(schedule[..|schedule| - 1]) + if w.Arrives? then [w.event] else []
  }

  // --- the meaning of a stream of events ---

  /** Adds an event, joining it to the last one when both are streamed text of one kind. */
  function Join(xs: seq<Event>, e: Event): seq<Event> {
    if xs != [] && Streamed(xs[|xs| - 1]) && e.Text? && xs[|xs| - 1].kind == e.kind
    then xs[..|xs| - 1] + [Text(e.kind, xs[|xs| - 1].text + e.text)]
    else xs + [e]
  }

  /** The normal form: every run of neighbouring tokens, or of neighbouring thoughts, is one event. */
  function Norm(xs: seq<Event>): seq<Event> {
    if xs == [] then [] else Join(Norm(xs[..|xs| - 1]), xs[|xs| - 1])
  }

  /** A single character of a kind of streamed text, or a whole event of another sort. */
  datatype Unit = Char(kind: Kind, c: char) | Whole(event: Event)

  function Chars(kind: Kind, text: string): (us: seq<Unit>)
    ensures |us| == |text|
    ensures forall i :: 0 <= i < |text| ==> us[i] == Char(kind, text[i])
  {
    seq(|text|, i requires 0 <= i < |text| => Char(kind, text[i]))
  }

  /** The stream as people read it: character by character, other events in between. */
  function Flat(xs: seq<Event>): seq<Unit> {
    if xs == [] then []
    else
      var e := xs[|xs| - 1];
      Flat(xs[..|xs| - 1]) + if Streamed(e) then Chars(e.kind, e.text) else [Whole(e)]
  }

  lemma NormOneMore(xs: seq<Event>, e: Event)
    ensures Norm(xs + [e]) == Join(Norm(xs), e)
  {
    assert (xs + [e])[..|xs|] == xs;
  }

  lemma FlatOneMore(xs: seq<Event>, e: Event)
    ensures Flat(xs + [e]) == Flat(xs) + if Streamed(e) then Chars(e.kind, e.text) else [Whole(e)]
  {
    assert (xs + [e])[..|xs|] == xs;
  }

  /** Joining two pieces one after the other is joining their concatenation. */
  lemma JoinTwice(xs: seq<Event>, kind: Kind, s: string, t: string)
    requires kind == Token || kind == Thought
    ensures Join(Join(xs, Text(kind, s)), Text(kind, t)) == Join(xs, Text(kind, s + t))
  {
    if xs != [] && Streamed(xs[|xs| - 1]) && xs[|xs| - 1].kind == kind {
      assert xs[|xs| - 1].text + s + t == xs[|xs| - 1].text + (s + t);
    }
  }

  function Held(l: Loop): seq<Event> {
    Flush(l).out
  }

  lemma {:induction false} PendIsStreamed(schedule: seq<Wake>)
    ensures Looped(schedule).pend.Some? ==> Streamed(Looped(schedule).pend.value)
  {
    if schedule != [] {
      PendIsStreamed(schedule[..|schedule| - 1]);
    }
  }

  /** What is sent or held back after an event has arrived. */
  lemma HeldAfter(l: Loop, ev: Event)
    requires l.pend.Some? ==> Streamed(l.pend.value)
    ensures Held(Wakes(l, Arrives(ev)))
         == if l.pend.Some? && l.pend.value.kind == ev.kind && ev.Text?
            then l.out + [Text(ev.kind, l.pend.value.text + ev.text)]
            else Held(l) + [ev]
  {
  }

  /** Joining a piece to the text held back gives the normal form of both. */
  lemma JoinsHeld(out: seq<Event>, pend: Event, ev: Event)
    requires Streamed(pend) && ev.Text? && pend.kind == ev.kind
    ensures Norm(out + [Text(ev.kind, pend.text + ev.text)]) == Join(Norm(out + [pend]), ev)
  {
    NormOneMore(out, pend);
    NormOneMore(out, Text(ev.kind, pend.text + ev.text));
    JoinTwice(Norm(out), ev.kind, pend.text, ev.text);
  }

  lemma WakeJoins(l: Loop, w: Wake)
    requires l.pend.Some? ==> Streamed(l.pend.value)
    ensures w.TimerFires? ==> Norm(Held(Wakes(l, w))) == Norm(Held(l))
    ensures w.Arrives? ==> Norm(Held(Wakes(l, w))) == Join(Norm(Held(l)), w.event)
  {
    if w.Arrives? {
      HeldAfter(l, w.event);
      if l.pend.Some? && l.pend.value.kind == w.event.kind && w.event.Text? {
        JoinsHeld(l.out, l.pend.value, w.event);
      } else {
        NormOneMore(Held(l), w.event);
      }
    }
  }

  /** At every moment what was sent, together with the text held back, reads like what arrived. */
  lemma {:induction false} NothingLostSoFar(schedule: seq<Wake>)
    ensures Norm(Held(Looped(schedule))) == Norm(Arrived(schedule))
  {
    if schedule != [] {
      var n := |schedule| - 1;
      NothingLostSoFar(schedule[..n]);
      PendIsStreamed(schedule[..n]);
      WakeJoins(Looped(schedule[..n]), schedule[n]);
      if schedule[n].Arrives? {
        NormOneMore(Arrived(schedule[..n]), schedule[n].event);
      } else {
        assert Arrived(schedule[..n]) + [] == Arrived(schedule[..n]);
      }
    }
  }

  /** When the timer fires nothing stays held back. */
  lemma TimerSendsWhatIsHeld(schedule: seq<Wake>)
    ensures Looped(schedule + [TimerFires]).pend == None
    ensures Norm(Looped(schedule + [TimerFires]).out) == Norm(Arrived(schedule))
  {
    assert (schedule + [TimerFires])[..|schedule|] == schedule;
    NothingLostSoFar(schedule);
    assert Held(Looped(schedule + [TimerFires])) == Looped(schedule + [TimerFires]).out;
  }

  /** Text that arrives is held back to be joined with its neighbours; everything else goes out at once, after what was
      held. Pieces of one kind become one event until the timer fires, something else arrives, or it is 8192 long. */
  lemma PiecesAreJoined(schedule: seq<Wake>, ev: Event)
    ensures var l, m := Looped(schedule), Looped(schedule + [Arrives(ev)]);
      if l.pend.Some? && ev.Text? && l.pend.value.kind == ev.kind then
        var joined := Text(ev.kind, l.pend.value.text + ev.text);
        if |joined.text| < 8192 then m.pend == Some(joined) && m.out == l.out
        else m.pend == None && m.out == l.out + [joined]
      else
        var before := if l.pend.Some? then l.out + [l.pend.value] else l.out;
        if ev.Text? && (ev.kind == Token || ev.kind == Thought) then m.pend == Some(ev) && m.out == before
        else m.pend == None && m.out == before + [ev]
  {
    assert (schedule + [Arrives(ev)])[..|schedule|] == schedule;
    PendIsStreamed(schedule);
  }

  function Texts(texts: seq<string>): string {
    if texts == [] then "" else Texts(texts[..|texts| - 1]) + texts[|texts| - 1]
  }

  /** The pieces arrive one after the other, without the timer between. */
  function Pieces(kind: Kind, texts: seq<string>): (wakes: seq<Wake>)
    ensures |wakes| == |texts|
    ensures forall i :: 0 <= i < |texts| ==> wakes[i] == Arrives(Text(kind, texts[i]))
  {
    seq(|texts|, i requires 0 <= i < |texts| => Arrives(Text(kind, texts[i])))
  }

  /** Pieces of one kind in a row are held back as one event while they are shorter than 8192 together, and go out as
      one event with the piece that makes them as long. */
  lemma {:induction false} NeighboursBecomeOne(schedule: seq<Wake>, kind: Kind, texts: seq<string>)
    requires (kind == Token || kind == Thought) && Looped(schedule).pend == None && texts != []
    requires |Texts(texts[..|texts| - 1])| < 8192
    ensures var out, l := Looped(schedule).out, Looped(schedule + Pieces(kind, texts));
      l == if |Texts(texts)| < 8192 || |texts| == 1 then Loop(Some(Text(kind, Texts(texts))), out)
           else Loop(None, out + [Text(kind, Texts(texts))])
  {
    var n := |texts| - 1;
    var before := schedule + Pieces(kind, texts[..n]);
    assert schedule + Pieces(kind, texts) == before + [Arrives(Text(kind, texts[n]))];
    PiecesAreJoined(before, Text(kind, texts[n]));
    if n == 0 {
      assert before == schedule;
      assert Texts(texts[..0]) == "" && "" + texts[0] == texts[0];
    } else {
      TextsGrow(texts[..n]);
      NeighboursBecomeOne(schedule, kind, texts[..n]);
    }
  }

  lemma TextsGrow(texts: seq<string>)
    requires texts != []
    ensures |Texts(texts[..|texts| - 1])| <= |Texts(texts)|
  {}

  lemma {:induction false} NormKeepsFlat(xs: seq<Event>)
    ensures Flat(Norm(xs)) == Flat(xs)
  {
    if xs != [] {
      var n := |xs| - 1;
      NormKeepsFlat(xs[..n]);
      JoinKeepsFlat(Norm(xs[..n]), xs[n]);
    }
  }

  lemma JoinKeepsFlat(xs: seq<Event>, e: Event)
    ensures Flat(Join(xs, e)) == Flat(xs) + if Streamed(e) then Chars(e.kind, e.text) else [Whole(e)]
  {
    if xs != [] && Streamed(xs[|xs| - 1]) && e.Text? && xs[|xs| - 1].kind == e.kind {
      var last := xs[|xs| - 1];
      FlatOneMore(xs[..|xs| - 1], Text(e.kind, last.text + e.text));
      assert Chars(e.kind, last.text + e.text) == Chars(e.kind, last.text) + Chars(e.kind, e.text);
    } else {
      FlatOneMore(xs, e);
    }
  }

  /** Main result: for every timer schedule the output means what the input means; no character is lost, doubled
      or moved past another event. */
  lemma OutputMeansInput(schedule: seq<Wake>)
    ensures Norm(Output(schedule)) == Norm(Arrived(schedule))
    ensures Flat(Output(schedule)) == Flat(Arrived(schedule))
  {
    NothingLostSoFar(schedule);
    NormKeepsFlat(Output(schedule));
    NormKeepsFlat(Arrived(schedule));
  }

  lemma {:induction false} NormHasNoNeighbours(xs: seq<Event>, i: nat)
    requires i + 1 < |Norm(xs)|
    ensures !(Streamed(Norm(xs)[i]) && Norm(xs)[i + 1].Text? && Norm(xs)[i].kind == Norm(xs)[i + 1].kind)
  {
    var n := |xs| - 1;
    if i + 1 < |Norm(xs[..n])| {
      NormHasNoNeighbours(xs[..n], i);
    }
  }

  // --- a handler that fails ---

  /** The first call, from the n-th on, that the handler refuses. */
  function FirstRefusal(accepts: nat -> bool, n: nat, end: nat): (k: nat)
    requires n <= end
    ensures n <= k <= end
    ensures forall j :: n <= j < k ==> accepts(j)
    ensures k < end ==> !accepts(k)
    decreases end - n
  {
    if n == end || !accepts(n) then n else FirstRefusal(accepts, n + 1, end)
  }

  /** What the handler is called with: everything up to and including the event it first refuses. */
  function Called(out: seq<Event>, accepts: nat -> bool): seq<Event> {
    var k := FirstRefusal(accepts, 0, |out|);
    if k < |out| then out[..k + 1] else out
  }

  class Deliverer {
    /** Whether the handler's n-th call succeeds. */
    const accepts: nat -> bool
    /** The handler's calls so far; err once one of them failed; how often onError was called. */
    var called: seq<Event>
    var err: bool
    var complaints: nat

    constructor (accepts: nat -> bool)
      ensures this.accepts == accepts && called == [] && !err && complaints == 0
    {
      this.accepts, called, err, complaints := accepts, [], false, 0;
    }

    /** sent is history: every event the loop tried to send. */
    ghost predicate Valid(sent: seq<Event>)
      reads this
    {
      && called == Called(sent, accepts)
      && err == (FirstRefusal(accepts, 0, |sent|) < |sent|)
      && complaints == if err then 1 else 0
    }

    method Send(ev: Event, ghost sent: seq<Event>)
      requires Valid(sent)
      modifies this
      ensures Valid(sent + [ev])
    {
      RefusalOneMore(accepts, 0, |sent|);
      if err {
        assert Called(sent + [ev], accepts) == Called(sent, accepts);
        return;
      }
      called := called + [ev];
      if !accepts(|called| - 1) {
        err := true;
        complaints := complaints + 1;
      }
    }

    /** The loop itself: at the end the handler was called with what the schedule's output says, cut after the
        first call that failed. */
    method Run(schedule: seq<Wake>)
      requires called == [] && !err && complaints == 0
      modifies this
      ensures called == Called(Output(schedule), accepts) && called <= Output(schedule)
      ensures !err ==> Norm(called) == Norm(Arrived(schedule))
      ensures err <==> FirstRefusal(accepts, 0, |Output(schedule)|) < |Output(schedule)|
      ensures complaints == if err then 1 else 0
    {
      var pend: Option<Event> := None;
      var window := false;
      ghost var sent: seq<Event> := [];
      for i := 0 to |schedule|
        invariant Valid(sent)
        invariant Looped(schedule[..i]) == Loop(pend, sent)
        invariant pend.Some? ==> window && Streamed(pend.value)
      {
        assert schedule[..i + 1][..i] == schedule[..i];
        PendIsStreamed(schedule[..i + 1]);
        match schedule[i] {
          case TimerFires =>
            if window {
              if pend.Some? {
                Send(pend.value, sent);
                sent := sent + [pend.value];
                pend := None;
              }
              window := false;
            }
          case Arrives(ev) =>
            if pend.Some? && pend.value.kind == ev.kind && ev.Text? {
              var text := pend.value.text + ev.text;
              pend := Some(Text(ev.kind, text));
              if |text| >= COALESCE_BYTES {
                Send(pend.value, sent);
                sent := sent + [pend.value];
                pend, window := None, false;
              }
            } else {
              if pend.Some? {
                Send(pend.value, sent);
                sent := sent + [pend.value];
              }
              pend, window := None, false;
              if (ev.kind == Token || ev.kind == Thought) && ev.Text? {
                pend, window := Some(ev), true;
              } else {
                Send(ev, sent);
                sent := sent + [ev];
              }
            }
        }
      }
      assert schedule[..|schedule|] == schedule;
      if pend.Some? {
        Send(pend.value, sent);
        sent := sent + [pend.value];
      }
      OutputMeansInput(schedule);
    }
  }

  lemma {:induction false} RefusalOneMore(accepts: nat -> bool, n: nat, end: nat)
    requires n <= end
    ensures FirstRefusal(accepts, n, end + 1)
      == (var k := FirstRefusal(accepts, n, end); if k < end || !accepts(end) then k else end + 1)
    decreases end - n
  {
    if n < end && accepts(n) {
      RefusalOneMore(accepts, n + 1, end);
    }
  }
}
