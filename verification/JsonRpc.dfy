/** The JSON-RPC 2.0 client side of the agent connection: requests, their replies and the connection's end, in every
    interleaving of the callers' goroutines with the read loop. */
module JsonRpc {
  import opened Lists

  /** Gone is what a request gets when the connection ends before its reply. */
  datatype Response = Result(body: string) | PeerError(message: string) | Gone

  /** Sending: registered and being written. Failed: the write failed, the caller got an error and no channel. */
  datatype Phase = Sending | Returned | Failed

  /** `since` is how many replies had been read when the request was registered; `inbox` is history: everything ever
      sent on its channel, which holds one value. */
  datatype Request = Request(phase: Phase, since: nat, inbox: seq<Response>)

  /** Request number i has id i + 1. `hand` is the reply the read loop took a channel for and has not sent yet;
      `draining` are the channels the ended read loop still has to answer. `read` is history: replies read. */
  datatype Conn = Conn(requests: seq<Request>, pending: map<string, nat>, closed: bool, done: bool,
                       hand: Option<(nat, Response)>, draining: set<nat>, read: seq<(string, Response)>)

  const START := Conn([], map[], false, false, None, {}, [])

  function Digit(n: nat): char
    requires n < 10
  {
    '0' + n as char
  }

  /** An id as it is written on the wire. */
  function Decimal(n: nat): (s: string)
    ensures s != ""
  {
    if n < 10 then [Digit(n)] else Decimal(n / 10) + [Digit(n % 10)]
  }

  function Id(i: nat): string {
    Decimal(i + 1)
  }

  lemma {:induction false} DecimalIsInjective(m: nat, n: nat)
    requires Decimal(m) == Decimal(n)
    ensures m == n
  {
    var a, b := Decimal(m), Decimal(n);
    assert a[|a| - 1] == Digit(m % 10) && b[|b| - 1] == Digit(n % 10);
    if m >= 10 && n >= 10 {
      assert a[..|a| - 1] == Decimal(m / 10) && b[..|b| - 1] == Decimal(n / 10);
      DecimalIsInjective(m / 10, n / 10);
    }
  }

  /** Ids are never reused: different requests carry different ids. */
  lemma IdsDiffer(i: nat, j: nat)
    ensures Id(i) == Id(j) <==> i == j
  {
    if Id(i) == Id(j) {
      DecimalIsInjective(i + 1, j + 1);
    }
  }

  // --- the steps ---

  /** The locked part of start: refused once the read loop has ended. */
  function Register(c: Conn): Conn {
    if c.closed then c
    else c.(requests := c.requests + [Request(Sending, |c.read|, [])],
            pending := c.pending[Id(|c.requests|) := |c.requests|])
  }

  function Sent(c: Conn, i: nat, ok: bool): Conn {
    if i >= |c.requests| || c.requests[i].phase != Sending then c
    else if ok then c.(requests := c.requests[i := c.requests[i].(phase := Returned)])
    else c.(requests := c.requests[i := c.requests[i].(phase := Failed)], pending := c.pending - {Id(i)})
  }

  /** The read loop reads a reply and, under the lock, takes the channel waiting for its id, if any. */
  function Take(c: Conn, id: string, r: Response): Conn {
    if c.closed || c.hand.Some? || r == Gone then c
    else
      var d := c.(read := c.read + [(id, r)]);
      if id in c.pending then d.(pending := c.pending - {id}, hand := Some((c.pending[id], r))) else d
  }

  function Send(c: Conn, i: nat, r: Response): Conn {
    if i < |c.requests| then c.(requests := c.requests[i := c.requests[i].(inbox := c.requests[i].inbox + [r])]) else c
  }

  function Deliver(c: Conn): Conn {
    if c.hand.None? then c else Send(c, c.hand.value.0, c.hand.value.1).(hand := None)
  }

  /** The read loop ended: from here on start is refused, and everything pending is to be answered. */
  function Close(c: Conn): Conn {
    if c.closed || c.hand.Some? then c else c.(closed := true, pending := map[], draining := c.pending.Values)
  }

  function Drain(c: Conn, i: nat): Conn {
    if i in c.draining then Send(c, i, Gone).(draining := c.draining - {i}) else c
  }

  function Finish(c: Conn): Conn {
    if c.closed && c.draining == {} then c.(done := true) else c
  }

  datatype Step =
    | Registers
    | Sents(i: nat, ok: bool)
    | Takes(id: string, r: Response)
    | Delivers
    | Closes
    | Drains(i: nat)
    | Finishes

  function Next(c: Conn, step: Step): Conn {
    match step
    case Registers => Register(c)
    case Sents(i, ok) => Sent(c, i, ok)
    case Takes(id, r) => Take(c, id, r)
    case Delivers => Deliver(c)
    case Closes => Close(c)
    case Drains(i) => Drain(c, i)
    case Finishes => Finish(c)
  }

  function After(script: seq<Step>): Conn {
    if script == [] then START else Next(After(script[..|script| - 1]), script[|script| - 1])
  }

  // --- what a request is owed ---

  /** The first reply with this id among those read from `from` on. */
  function FirstReply(read: seq<(string, Response)>, from: nat, id: string): Option<Response> {
    if |read| <= from then None
    else
      var r := FirstReply(read[..|read| - 1], from, id);
      if r.Some? then r else if read[|read| - 1].0 == id then Some(read[|read| - 1].1) else None
  }

  /** Where a request stands: still waiting for its reply, being answered, or answered by the first reply that
      carried its id; with no reply, answered when the connection ended. */
  ghost predicate Answering(c: Conn, i: nat)
    requires i < |c.requests|
  {
    var r := c.requests[i];
    var first := FirstReply(c.read, r.since, Id(i));
    if first.Some? then
      && i !in c.draining && Id(i) !in c.pending
      && (if c.hand.Some? && c.hand.value.0 == i then c.hand.value.1 == first.value && r.inbox == []
          else r.inbox == [first.value])
    else
      && !(c.hand.Some? && c.hand.value.0 == i)
      && if !c.closed then Id(i) in c.pending && c.pending[Id(i)] == i && r.inbox == [] && i !in c.draining
         else r.inbox == (if i in c.draining then [] else [Gone])
  }

  /** A request whose write failed may still have been answered, into a channel nobody reads. */
  ghost predicate Abandoned(c: Conn, i: nat)
    requires i < |c.requests|
  {
    Answering(c, i) || (c.requests[i].inbox == [] && !(c.hand.Some? && c.hand.value.0 == i) && i !in c.draining
                        && Id(i) !in c.pending)
  }

  ghost predicate Inv(c: Conn) {
    && (forall id :: id in c.pending ==> c.pending[id] < |c.requests| && id == Id(c.pending[id]))
    && (c.hand.Some? ==> c.hand.value.0 < |c.requests| && !c.closed)
    && (forall i :: i in c.draining ==> i < |c.requests|)
    && (c.draining != {} ==> c.closed)
    && (c.closed ==> c.pending == map[])
    && (c.done ==> c.closed && c.draining == {})
    && (forall i :: 0 <= i < |c.requests| ==> c.requests[i].since <= |c.read|)
    && (forall i :: 0 <= i < |c.requests| ==>
          if c.requests[i].phase == Failed then Abandoned(c, i) else Answering(c, i))
  }

  lemma FirstReplyOneMore(read: seq<(string, Response)>, from: nat, id: string, key: string, r: Response)
    requires from <= |read|
    ensures FirstReply(read + [(key, r)], from, id)
         == (if FirstReply(read, from, id).Some? then FirstReply(read, from, id)
             else if key == id then Some(r) else None)
  {
    assert (read + [(key, r)])[..|read|] == read;
  }

  lemma RegisterKeeps(c: Conn)
    requires Inv(c)
    ensures Inv(Register(c))
  {
    if !c.closed {
      var d := Register(c);
      var n := |c.requests|;
      forall i | 0 <= i < |d.requests|
        ensures if d.requests[i].phase == Failed then Abandoned(d, i) else Answering(d, i)
      {
        if i < n {
          assert d.requests[i] == c.requests[i];
          IdsDiffer(i, n);
        }
      }
    }
  }

  lemma SentKeeps(c: Conn, i: nat, ok: bool)
    requires Inv(c)
    ensures Inv(Sent(c, i, ok))
  {
    if i < |c.requests| && c.requests[i].phase == Sending {
      var d := Sent(c, i, ok);
      forall j | 0 <= j < |d.requests|
        ensures if d.requests[j].phase == Failed then Abandoned(d, j) else Answering(d, j)
      {
        IdsDiffer(i, j);
      }
    }
  }

  lemma TakeKeeps(c: Conn, id: string, r: Response)
    requires Inv(c)
    ensures Inv(Take(c, id, r))
  {
    if !c.closed && c.hand.None? && r != Gone {
      var d := Take(c, id, r);
      forall i | 0 <= i < |d.requests|
        ensures if d.requests[i].phase == Failed then Abandoned(d, i) else Answering(d, i)
      {
        FirstReplyOneMore(c.read, c.requests[i].since, Id(i), id, r);
      }
    }
  }

  lemma DeliverKeeps(c: Conn)
    requires Inv(c)
    ensures Inv(Deliver(c))
  {
    if c.hand.Some? {
      var d := Deliver(c);
      forall i | 0 <= i < |d.requests|
        ensures if d.requests[i].phase == Failed then Abandoned(d, i) else Answering(d, i)
      {
        assert if c.requests[i].phase == Failed then Abandoned(c, i) else Answering(c, i);
      }
    }
  }

  lemma CloseKeeps(c: Conn)
    requires Inv(c)
    ensures Inv(Close(c))
  {
    if !c.closed && c.hand.None? {
      var d := Close(c);
      forall i | i in d.draining ensures i < |d.requests| && Id(i) in c.pending && c.pending[Id(i)] == i {
        var id :| id in c.pending && c.pending[id] == i;
      }
      forall i | 0 <= i < |d.requests|
        ensures if d.requests[i].phase == Failed then Abandoned(d, i) else Answering(d, i)
      {
        assert if c.requests[i].phase == Failed then Abandoned(c, i) else Answering(c, i);
      }
    }
  }

  lemma DrainKeeps(c: Conn, i: nat)
    requires Inv(c)
    ensures Inv(Drain(c, i))
  {
    if i in c.draining {
      var d := Drain(c, i);
      forall j | 0 <= j < |d.requests|
        ensures if d.requests[j].phase == Failed then Abandoned(d, j) else Answering(d, j)
      {
        assert if c.requests[j].phase == Failed then Abandoned(c, j) else Answering(c, j);
      }
    }
  }

  lemma StepKeeps(c: Conn, step: Step)
    requires Inv(c)
    ensures Inv(Next(c, step))
  {
    match step {
      case Registers => RegisterKeeps(c);
      case Sents(i, ok) => SentKeeps(c, i, ok);
      case Takes(id, r) => TakeKeeps(c, id, r);
      case Delivers => DeliverKeeps(c);
      case Closes => CloseKeeps(c);
      case Drains(i) => DrainKeeps(c, i);
      case Finishes =>
        var d := Finish(c);
        forall i | 0 <= i < |d.requests|
          ensures if d.requests[i].phase == Failed then Abandoned(d, i) else Answering(d, i)
        {
          assert if c.requests[i].phase == Failed then Abandoned(c, i) else Answering(c, i);
        }
    }
  }

  lemma {:induction false} AlwaysInv(script: seq<Step>)
    ensures Inv(After(script))
  {
    if script != [] {
      AlwaysInv(script[..|script| - 1]);
      StepKeeps(After(script[..|script| - 1]), script[|script| - 1]);
    }
  }

  // --- the promises ---

  /** No request ever gets more than one result, whatever the peer sends. */
  lemma AtMostOneResult(script: seq<Step>, i: nat)
    requires i < |After(script).requests|
    ensures |After(script).requests[i].inbox| <= 1
  {
    AlwaysInv(script);
    var c := After(script);
    assert if c.requests[i].phase == Failed then Abandoned(c, i) else Answering(c, i);
  }

  /** The read loop never blocks on a channel: when it sends, the one-place channel is empty. */
  lemma SendsNeverBlock(script: seq<Step>, step: Step, i: nat)
    requires var c := After(script);
      (step == Delivers && c.hand.Some? && c.hand.value.0 == i) || (step == Drains(i) && i in c.draining)
    ensures i < |After(script).requests| && After(script).requests[i].inbox == []
  {
    AlwaysInv(script);
    var c := After(script);
    assert if c.requests[i].phase == Failed then Abandoned(c, i) else Answering(c, i);
  }

  /** Main result: once the read loop is done every channel handed to a caller has received exactly one response:
      the first reply that carried the request's id after it was registered, or Gone when there was none. */
  lemma ExactlyOneResult(script: seq<Step>, i: nat)
    requires var c := After(script); c.done && i < |c.requests| && c.requests[i].phase == Returned
    ensures
      var c := After(script);
      var r := c.requests[i];
      var first := FirstReply(c.read, r.since, Id(i));
      r.inbox == [if first.Some? then first.value else Gone]
  {
    AlwaysInv(script);
    assert Answering(After(script), i);
  }

  /** Also while the connection lives, what a caller receives is the first reply with its id, never another's. */
  lemma ResultIsTheFirstReply(script: seq<Step>, i: nat)
    requires var c := After(script); i < |c.requests| && !c.closed && c.requests[i].inbox != []
    ensures
      var c := After(script);
      FirstReply(c.read, c.requests[i].since, Id(i)) == Some(c.requests[i].inbox[0])
  {
    AlwaysInv(script);
    var c := After(script);
    assert if c.requests[i].phase == Failed then Abandoned(c, i) else Answering(c, i);
  }
}
