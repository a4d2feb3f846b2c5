/** The conversation loop: people's messages reach the agent as its next turn, an interrupting one cancels the turn. */
module Steering {
  import opened Lists

  datatype Steer = Steer(author: string, text: string, interrupt: bool)

  datatype Stop = EndTurn | Cancelled | OtherStop(reason: string)

  /** What the loop wakes up for: a message, the end of messages, the turn's reply (and whether writing the next
      turn would succeed), a failed reply, or the Run's own end. */
  datatype Wake =
    | Says(message: Steer)
    | NoMore
    | TurnEnds(stop: Stop, canSend: bool)
    | ReplyFails
    | RunEnds

  datatype Outcome = Success | Stopped(stop: Stop) | SendFailed | PeerFailed | Ended

  /** turns, cancels and taken are history: the messages of each turn sent after the first prompt, how many cancels each
      turn saw (the current one last), and every message taken from the channel. */
  datatype Talk = Talk(pending: seq<Steer>, interrupted: bool, listening: bool, turns: seq<seq<Steer>>,
                       cancels: seq<nat>, taken: seq<Steer>, outcome: Option<Outcome>)

  const START := Talk([], false, true, [], [0], [], None)

  function Bump(cancels: seq<nat>): seq<nat>
    requires cancels != []
  {
    cancels[|cancels| - 1 := cancels[|cancels| - 1] + 1]
  }

  /** The turn was over for the agent, or people interrupted it. */
  predicate CarriesOn(t: Talk, stop: Stop) {
    stop == EndTurn || (stop == Cancelled && t.interrupted && |t.pending| > 0)
  }

  function Hears(t: Talk, w: Wake): Talk {
    if t.outcome.Some? || t.cancels == [] then t
    else
      match w
      case Says(m) =>
        if !t.listening then t
        else
          t.(pending := t.pending + [m], taken := t.taken + [m], interrupted := t.interrupted || m.interrupt,
             cancels := if m.interrupt && !t.interrupted then Bump(t.cancels) else t.cancels)
      case NoMore => t.(listening := false)
      case TurnEnds(stop, canSend) =>
        if !CarriesOn(t, stop) then t.(outcome := Some(Stopped(stop)))
        else if |t.pending| == 0 then t.(outcome := Some(Success))
        else if !canSend then t.(outcome := Some(SendFailed))
        else t.(turns := t.turns + [t.pending], cancels := t.cancels + [0], pending := [], interrupted := false)
      case ReplyFails => t.(outcome := Some(PeerFailed))
      case RunEnds => t.(outcome := Some(Ended), cancels := Bump(t.cancels)) // asks the agent to stop, then gives up
  }

  function Heard(schedule: seq<Wake>): Talk {
    if schedule == [] then START else Hears(Heard(schedule[..|schedule| - 1]), schedule[|schedule| - 1])
  }

  // --- what holds at every turn ---

  function Concat(turns: seq<seq<Steer>>): seq<Steer> {
    if turns == [] then [] else Concat(turns[..|turns| - 1]) + turns[|turns| - 1]
  }

  predicate Interrupts(ms: seq<Steer>) {
    exists m :: m in ms && m.interrupt
  }

  ghost predicate Inv(t: Talk) {
    && t.taken == Concat(t.turns) + t.pending
    && (t.interrupted <==> Interrupts(t.pending))
    && |t.cancels| == |t.turns| + 1
    && (forall k :: 0 <= k < |t.turns| ==>
          t.turns[k] != [] && t.cancels[k] == if Interrupts(t.turns[k]) then 1 else 0)
    && t.cancels[|t.turns|] == (if Interrupts(t.pending) then 1 else 0) + (if t.outcome == Some(Ended) then 1 else 0)
    && (t.outcome == Some(Success) ==> t.pending == [])
    && t.outcome != Some(Stopped(EndTurn))
    && (t.outcome == Some(Stopped(Cancelled)) ==> !Interrupts(t.pending))
    && (t.outcome == Some(SendFailed) ==> t.pending != [])
  }

  lemma SaysKeeps(t: Talk, m: Steer)
    requires Inv(t)
    ensures Inv(Hears(t, Says(m)))
  {
    assert m in t.pending + [m];
    assert Interrupts(t.pending + [m]) <==> Interrupts(t.pending) || m.interrupt by {
      if Interrupts(t.pending) {
        var x :| x in t.pending && x.interrupt;
        assert x in t.pending + [m];
      }
    }
    assert Concat(t.turns) + t.pending + [m] == Concat(t.turns) + (t.pending + [m]);
  }

  lemma NextTurnKeeps(t: Talk)
    requires Inv(t) && t.outcome == None && t.pending != []
    ensures Inv(t.(turns := t.turns + [t.pending], cancels := t.cancels + [0], pending := [], interrupted := false))
  {
    var more := t.turns + [t.pending];
    assert more[..|more| - 1] == t.turns;
    assert Concat(more) + [] == Concat(more);
  }

  lemma TurnEndKeeps(t: Talk, stop: Stop, canSend: bool)
    requires Inv(t)
    ensures Inv(Hears(t, TurnEnds(stop, canSend)))
  {
    if t.outcome == None && t.pending != [] {
      NextTurnKeeps(t);
    }
  }

  lemma RunEndKeeps(t: Talk)
    requires Inv(t)
    ensures Inv(Hears(t, RunEnds))
  {}

  lemma WakeKeeps(t: Talk, w: Wake)
    requires Inv(t)
    ensures Inv(Hears(t, w))
  {
    match w {
      case Says(m) => SaysKeeps(t, m);
      case NoMore =>
      case TurnEnds(stop, canSend) => TurnEndKeeps(t, stop, canSend);
      case ReplyFails =>
      case RunEnds => RunEndKeeps(t);
    }
  }

  lemma {:induction false} AlwaysInv(schedule: seq<Wake>)
    ensures Inv(Heard(schedule))
  {
    if schedule != [] {
      AlwaysInv(schedule[..|schedule| - 1]);
      WakeKeeps(Heard(schedule[..|schedule| - 1]), schedule[|schedule| - 1]);
    }
  }

  /** Messages are conserved: those taken are those sent as turns followed by those pending, in order, and the loop
      reports success only when every message taken reached the agent. */
  lemma {:induction false} MessagesAreConserved(schedule: seq<Wake>)
    ensures var t := Heard(schedule);
      && t.taken == Concat(t.turns) + t.pending
      && (t.outcome == Some(Success) ==> t.taken == Concat(t.turns))
  {
    AlwaysInv(schedule);
    assert Concat(Heard(schedule).turns) + [] == Concat(Heard(schedule).turns);
  }

  /** A turn is canceled once when somebody interrupts it, however often they do, and once when the Run itself ends
      during it; never otherwise. */
  lemma {:induction false} OneCancelPerTurn(schedule: seq<Wake>, k: nat)
    requires k <= |Heard(schedule).turns|
    ensures var t := Heard(schedule);
      && k < |t.cancels|
      && t.cancels[k] == (if Interrupts(if k < |t.turns| then t.turns[k] else t.pending) then 1 else 0)
                       + (if k == |t.turns| && t.outcome == Some(Ended) then 1 else 0)
  {
    AlwaysInv(schedule);
  }

  /** A canceled turn is the agent's own doing exactly when nobody interrupted it; only then does it end the loop. */
  lemma {:induction false} CancelledTurn(schedule: seq<Wake>, canSend: bool)
    requires Heard(schedule).outcome == None
    ensures var t := Heard(schedule);
      (Hears(t, TurnEnds(Cancelled, canSend)).outcome == Some(Stopped(Cancelled))) <==> !Interrupts(t.pending)
  {
    AlwaysInv(schedule);
    var t := Heard(schedule);
    if Interrupts(t.pending) {
      var m :| m in t.pending && m.interrupt;
      assert |t.pending| > 0;
    }
  }

  // --- how the loop ends ---

  /** What people said while the loop listened. */
  function Said(schedule: seq<Wake>): seq<Steer> {
    if schedule == [] then []
    else
      var n := |schedule| - 1;
      Said(schedule[..n])
      + if schedule[n].Says? && NoMore !in schedule[..n] then [schedule[n].message] else []
  }

  lemma HearsTakes(t: Talk, w: Wake)
    requires t.cancels != [] && Hears(t, w).outcome == None
    ensures t.outcome == None
    ensures Hears(t, w).taken == t.taken + if w.Says? && t.listening then [w.message] else []
    ensures Hears(t, w).listening <==> t.listening && w != NoMore
  {}

  /** While it runs the loop has taken everything people said, and it listens until told there is no more. */
  lemma {:induction false} EverythingSaidIsTaken(schedule: seq<Wake>)
    requires Heard(schedule).outcome == None
    ensures Heard(schedule).taken == Said(schedule) && (Heard(schedule).listening <==> NoMore !in schedule)
  {
    if schedule != [] {
      var n := |schedule| - 1;
      AlwaysInv(schedule[..n]);
      HearsTakes(Heard(schedule[..n]), schedule[n]);
      EverythingSaidIsTaken(schedule[..n]);
      OneMoreWake(schedule[..n], schedule[n]);
      assert schedule[..n] + [schedule[n]] == schedule;
    }
  }

  lemma OneMoreWake(before: seq<Wake>, w: Wake)
    ensures NoMore !in before + [w] <==> NoMore !in before && w != NoMore
  {}

  /** What was taken and not yet sent to the agent. */
  function Unsent(t: Talk): seq<Steer>
    requires |Concat(t.turns)| <= |t.taken|
  {
    t.taken[|Concat(t.turns)|..]
  }

  /** A turn that is over for the agent, or that somebody interrupted with a message. */
  predicate WellEnded(t: Talk, stop: Stop)
    requires |Concat(t.turns)| <= |t.taken|
  {
    stop == EndTurn || (stop == Cancelled && exists m :: m in Unsent(t) && m.interrupt)
  }

  /** How the loop that still runs after k wake-ups reacts to the next one. A turn that stopped for any other reason
      ends it with that reason; one that ended well is a success when everything taken was sent, and otherwise the
      rest is the next turn. */
  lemma NextOutcome(schedule: seq<Wake>, k: nat)
    requires k < |schedule| && Heard(schedule[..k]).outcome == None
    ensures var t, v := Heard(schedule[..k]), Heard(schedule[..k + 1]);
      && |Concat(t.turns)| <= |t.taken|
      && match schedule[k]
         case Says(_) => v.outcome == None && v.turns == t.turns
         case NoMore => v.outcome == None && v.turns == t.turns
         case ReplyFails => v.outcome == Some(PeerFailed)
         case RunEnds => v.outcome == Some(Ended)
         case TurnEnds(stop, canSend) =>
           if !WellEnded(t, stop) then v.outcome == Some(Stopped(stop)) && v.turns == t.turns
           else if Unsent(t) == [] then v.outcome == Some(Success) && v.turns == t.turns
           else if !canSend then v.outcome == Some(SendFailed) && v.turns == t.turns
           else v.outcome == None && v.turns == t.turns + [Unsent(t)]
  {
    AlwaysInv(schedule[..k]);
    assert schedule[..k + 1][..k] == schedule[..k];
    var t := Heard(schedule[..k]);
    assert Unsent(t) == t.pending;
  }

  /** The wake-up that ended the loop. */
  ghost predicate EndedBy(schedule: seq<Wake>, k: int) {
    0 <= k < |schedule| && Heard(schedule[..k]).outcome == None && Heard(schedule[..k + 1]).outcome.Some?
  }

  lemma {:induction false} EndsOnce(schedule: seq<Wake>) returns (k: nat)
    requires Heard(schedule).outcome.Some?
    ensures EndedBy(schedule, k) && Heard(schedule[..k + 1]).outcome == Heard(schedule).outcome
  {
    var n := |schedule| - 1;
    if Heard(schedule[..n]).outcome == None {
      k := n;
      assert schedule[..n + 1] == schedule;
    } else {
      HearsNothing(Heard(schedule[..n]), schedule[n]);
      k := EndsOnce(schedule[..n]);
      assert schedule[..n][..k] == schedule[..k] && schedule[..n][..k + 1] == schedule[..k + 1];
    }
  }

  /** The loop ended on a turn that was over for the agent, with every message taken by then sent. */
  ghost predicate EndedWell(schedule: seq<Wake>, k: int) {
    && EndedBy(schedule, k) && schedule[k].TurnEnds? && schedule[k].stop == EndTurn
    && Heard(schedule[..k]).taken == Concat(Heard(schedule[..k]).turns)
  }

  lemma NextSucceeds(schedule: seq<Wake>, k: nat)
    requires k < |schedule| && Heard(schedule[..k]).outcome == None
    ensures Heard(schedule[..k + 1]).outcome == Some(Success) <==>
      && schedule[k].TurnEnds? && schedule[k].stop == EndTurn
      && Heard(schedule[..k]).taken == Concat(Heard(schedule[..k]).turns)
  {
    AlwaysInv(schedule[..k]);
    NextOutcome(schedule, k);
    var t := Heard(schedule[..k]);
    assert Unsent(t) == t.pending && (t.pending == [] <==> t.taken == Concat(t.turns));
  }

  lemma SuccessIsEndedWell(schedule: seq<Wake>, k: nat)
    requires EndedBy(schedule, k)
    ensures Heard(schedule).outcome == Some(Success) <==> EndedWell(schedule, k)
  {
    StaysOver(schedule, k + 1);
    NextSucceeds(schedule, k);
  }

  /** Main result: the Run succeeds if and only if the loop ended on a turn that was over for the agent, with every
      message taken by then sent. A refusal, a limit, a cancel nobody asked for or a failed reply never succeeds. */
  lemma SucceedsExactlyWhen(schedule: seq<Wake>)
    ensures Heard(schedule).outcome == Some(Success) <==> exists k :: EndedWell(schedule, k)
  {
    if Heard(schedule).outcome == Some(Success) {
      var k := EndsOnce(schedule);
      SuccessIsEndedWell(schedule, k);
    }
    if k :| EndedWell(schedule, k) {
      SuccessIsEndedWell(schedule, k);
    }
  }

  // --- the loop ---

  class Session {
    var turns: seq<seq<Steer>>
    var cancels: seq<nat>

    constructor ()
      ensures turns == [] && cancels == [0]
    {
      turns, cancels := [], [0];
    }

    /** Tells the agent to stop its turn. */
    method Cancel()
      requires cancels != []
      modifies this`cancels
      ensures cancels == Bump(old(cancels))
    {
      cancels := cancels[|cancels| - 1 := cancels[|cancels| - 1] + 1];
    }

    /** Wakes up for one thing after another until it returns; with the schedule used up it is still waiting. */
    method Converse(schedule: seq<Wake>) returns (outcome: Option<Outcome>, ghost taken: seq<Steer>,
        pending: seq<Steer>)
      requires turns == [] && cancels == [0]
      modifies this
      ensures var t := Heard(schedule);
        turns == t.turns && cancels == t.cancels && outcome == t.outcome && taken == t.taken && pending == t.pending
      ensures taken == Concat(turns) + pending
      ensures outcome == Some(Success) ==> pending == []
    {
      pending, taken, outcome := [], [], None;
      var interrupted, listening := false, true;
      var i := 0;
      while i < |schedule|
        invariant 0 <= i <= |schedule| && outcome == None
        invariant Heard(schedule[..i]) == Talk(pending, interrupted, listening, turns, cancels, taken, None)
      {
        HeardOneMore(schedule, i);
        match schedule[i] {
          case Says(m) =>
            if listening {
              pending := pending + [m];
              taken := taken + [m];
              if m.interrupt && !interrupted {
                interrupted := true;
                Cancel();
              }
            }
          case NoMore =>
            listening := false;
          case TurnEnds(stop, canSend) =>
            if stop == EndTurn || (stop == Cancelled && interrupted && |pending| > 0) {
              if |pending| == 0 {
                outcome := Some(Success);
              } else if !canSend {
                outcome := Some(SendFailed);
              } else {
                turns, cancels := turns + [pending], cancels + [0];
                pending, interrupted := [], false;
              }
            } else {
              outcome := Some(Stopped(stop));
            }
          case ReplyFails =>
            outcome := Some(PeerFailed);
          case RunEnds =>
            Cancel();
            outcome := Some(Ended);
        }
        i := i + 1;
        if outcome.Some? {
          StaysOver(schedule, i);
          Ends(schedule);
          return;
        }
      }
      assert schedule[..i] == schedule;
      Ends(schedule);
    }
  }

  lemma HeardOneMore(schedule: seq<Wake>, i: nat)
    requires i < |schedule|
    ensures Heard(schedule[..i + 1]) == Hears(Heard(schedule[..i]), schedule[i])
    ensures Heard(schedule[..i]).cancels != []
  {
    AlwaysInv(schedule[..i]);
    assert schedule[..i + 1][..i] == schedule[..i];
  }

  lemma {:induction false} Ends(schedule: seq<Wake>)
    ensures var t := Heard(schedule);
      t.taken == Concat(t.turns) + t.pending && (t.outcome == Some(Success) ==> t.pending == [])
  {
    AlwaysInv(schedule);
  }

  lemma HearsNothing(t: Talk, w: Wake)
    requires t.outcome.Some?
    ensures Hears(t, w) == t
  {}

  /** Nothing is heard after the loop returned. */
  lemma {:induction false} StaysOver(schedule: seq<Wake>, i: nat)
    requires i <= |schedule| && Heard(schedule[..i]).outcome.Some?
    ensures Heard(schedule) == Heard(schedule[..i])
  {
    var n := |schedule| - 1;
    if i == |schedule| {
      assert schedule[..i] == schedule;
    } else {
      assert schedule[..n][..i] == schedule[..i];
      StaysOver(schedule[..n], i);
      HearsNothing(Heard(schedule[..n]), schedule[n]);
    }
  }
}
