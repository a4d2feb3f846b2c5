/** The connection as an object: the locked sections of start and of the read loop. */
module JsonRpcPeer {
  import opened Lists
  import opened JsonRpc

  class Peer {
    var nextId: nat
    var pending: map<string, nat>
    var closed: bool
    var done: bool
    var hand: Option<(nat, Response)>
    var draining: set<nat>
    var requests: seq<Request>
    var read: seq<(string, Response)>

    ghost function View(): Conn
      reads this
    {
      Conn(requests, pending, closed, done, hand, draining, read)
    }

    ghost predicate Valid()
      reads this
    {
      nextId == |requests| && Inv(View())
    }

    constructor ()
      ensures Valid() && View() == START
    {
      nextId, pending, closed, done := 0, map[], false, false;
      hand, draining, requests, read := None, {}, [], [];
    }

    /** Registers a request; refused once the read loop has ended. */
    method Start() returns (id: Option<nat>)
      requires Valid()
      modifies this
      ensures Valid() && View() == Register(old(View()))
      ensures id == if old(closed) then None else Some(old(nextId) + 1)
    {
      RegisterKeeps(View());
      if closed {
        return None;
      }
      nextId := nextId + 1;
      pending := pending[Decimal(nextId) := nextId - 1];
      requests := requests + [Request(Sending, |read|, [])];
      return Some(nextId);
    }

    /** The request's bytes were written, or the write failed and nobody will wait for it. */
    method Written(i: nat, ok: bool)
      requires Valid() && i < |requests| && requests[i].phase == Sending
      modifies this
      ensures Valid() && View() == Sent(old(View()), i, ok)
      ensures requests[i] == old(requests)[i].(phase := if ok then Returned else Failed)
      ensures pending == if ok then old(pending) else old(pending) - {Decimal(i + 1)}
    {
      SentKeeps(View(), i, ok);
      if ok {
        requests := requests[i := requests[i].(phase := Returned)];
      } else {
        pending := pending - {Decimal(i + 1)};
        requests := requests[i := requests[i].(phase := Failed)];
      }
    }

    /** A reply from the peer goes to the request that carries its id; without one it is dropped. */
    method Reply(id: string, r: Response)
      requires Valid() && !closed && hand == None && r != Gone
      modifies this
      ensures Valid() && View() == Deliver(Take(old(View()), id, r))
      ensures id !in old(pending) ==> requests == old(requests) && pending == old(pending)
    {
      TakeKeeps(View(), id, r);
      DeliverKeeps(Take(View(), id, r));
      read := read + [(id, r)];
      if id !in pending {
        return;
      }
      var i := pending[id];
      pending := pending - {id};
      requests := requests[i := requests[i].(inbox := requests[i].inbox + [r])];
    }

    method AnswerGone(i: nat)
      requires Valid() && i in draining
      modifies this`requests, this`draining
      ensures Valid() && i < |old(requests)| && draining == old(draining) - {i}
      ensures requests == old(requests)[i := old(requests)[i].(inbox := old(requests)[i].inbox + [Gone])]
    {
      DrainKeeps(View(), i);
      requests := requests[i := requests[i].(inbox := requests[i].inbox + [Gone])];
      draining := draining - {i};
    }

    /** Answers every request the ended read loop took over. */
    method AnswerAllGone()
      requires Valid() && closed && !done
      modifies this`requests, this`draining
      ensures Valid() && draining == {}
      ensures GoneTo(old(requests), requests, old(draining))
    {
      ghost var was, all := requests, draining;
      ghost var answered: set<nat> := {};
      while draining != {}
        invariant Valid() && closed && !done
        invariant answered + draining == all && answered !! draining
        invariant GoneTo(was, requests, answered)
        decreases |draining|
      {
        var i :| i in draining;
        ghost var before, left := requests, draining;
        AnswerGone(i);
        OneMoreGone(was, before, answered, i);
        OneLess(answered, left, i);
        answered := answered + {i};
      }
      assert answered == all;
    }

    /** The read loop ends: start is refused from here on, and every request still waiting gets Gone. */
    method EndReadLoop()
      requires Valid() && !closed && hand == None && !done
      modifies this
      ensures Valid() && done && read == old(read)
      ensures GoneTo(old(requests), requests, old(pending).Values)
    {
      CloseKeeps(View());
      closed, draining, pending := true, pending.Values, map[];
      AnswerAllGone();
      StepKeeps(View(), Finishes);
      done := true;
    }
  }

  /** The requests in `who` got Gone, and nothing else changed. */
  ghost predicate GoneTo(was: seq<Request>, now: seq<Request>, who: set<nat>) {
    |now| == |was| && forall i :: 0 <= i < |now| ==>
      now[i] == if i in who then was[i].(inbox := was[i].inbox + [Gone]) else was[i]
  }

  lemma OneMoreGone(was: seq<Request>, now: seq<Request>, who: set<nat>, i: nat)
    requires GoneTo(was, now, who) && i < |now| && i !in who
    ensures GoneTo(was, now[i := now[i].(inbox := now[i].inbox + [Gone])], who + {i})
  {}

  lemma OneLess(some: set<nat>, rest: set<nat>, i: nat)
    requires i in rest && some !! rest
    ensures some + {i} + (rest - {i}) == some + rest && some + {i} !! rest - {i}
    ensures |rest - {i}| < |rest|
  {
    assert rest == rest - {i} + {i};
  }
}
