/** Following a Run's events through the API until it finishes, while the Server keeps adding events. */
module RunFollow {
  import opened Lists

  /** How many events one request returns at most. */
  const PAGE: nat := 5000

  /** What the Server would answer one request: how many events are committed, numbered from 1, the final status if
      the Run finished, or a failure. */
  datatype View = View(count: nat, final: Option<string>, fails: bool)

  datatype Followed = Finished(status: string) | Failed | StillFollowing

  /** Committed events stay, a finished Run stays finished. */
  ghost predicate Advancing(calls: seq<View>) {
    forall j, k :: 0 <= j < k < |calls| ==>
      calls[j].count <= calls[k].count && (calls[j].final.Some? ==> calls[k].final == calls[j].final)
  }

  /** No event is added once the Run has finished. */
  ghost predicate Settled(calls: seq<View>) {
    forall j, k :: 0 <= j < k < |calls| && calls[j].final.Some? ==> calls[k].count == calls[j].count
  }

  /** The events 1 to n, in order. */
  function Upto(n: nat): (es: seq<nat>)
    ensures |es| == n
    ensures forall i :: 0 <= i < n ==> es[i] == i + 1
  {
    seq(n, i requires 0 <= i < n => i + 1)
  }

  /** One page of the events after `after`, and whether there are more. */
  function Events(v: View, after: nat): (r: (seq<nat>, bool))
    ensures |r.0| <= PAGE
  {
    if v.count <= after then ([], false)
    else if v.count - after <= PAGE then
      (seq(v.count - after, i requires 0 <= i < v.count - after => after + i + 1), false)
    else (seq(PAGE, i requires 0 <= i < PAGE => after + i + 1), true)
  }

  lemma NextPage(v: View, after: nat)
    requires after <= v.count
    ensures
      var r := Events(v, after);
      Upto(after) + r.0 == Upto(after + |r.0|) && after + |r.0| <= v.count && (r.1 <==> after + |r.0| < v.count)
      && (r.1 ==> |r.0| == 5000)
  {}

  /** calls are the Server's answers in the order the requests are made. Every event is handed on once, in order. A
      status is returned only after the Run was seen finished, and unless the very last request failed, with every
      event committed by then handed on; for a Run that gains no events once finished, that is all it ever has. */
  method Follow(calls: seq<View>) returns (r: Followed, handed: seq<nat>, used: nat)
    requires Advancing(calls)
    ensures used <= |calls| && handed == Upto(|handed|)
    ensures r == StillFollowing ==> used == |calls|
    ensures r.Finished? ==>
      && used >= 3 && calls[used - 2].final == Some(r.status)
      && |handed| == (if calls[used - 1].fails then calls[used - 3] else calls[used - 1]).count
    ensures r.Finished? && Settled(calls) && !calls[used - 1].fails ==>
      forall k :: used - 2 <= k < |calls| ==> handed == Upto(calls[k].count)
  {
    handed, used := [], 0;
    var after := 0;
    while used < |calls|
      invariant used <= |calls| && after == |handed| && handed == Upto(after)
      invariant after <= if used == 0 then 0 else calls[used - 1].count
      decreases |calls| - used
    {
      if used > 0 {
        assert calls[used - 1].count <= calls[used].count;
      }
      var page := calls[used];
      used := used + 1;
      if page.fails {
        return Failed, handed, used;
      }
      var (evs, more) := Events(page, after);
      NextPage(page, after);
      handed, after := handed + evs, after + |evs|;
      if more {
        continue;
      }
      if used == |calls| {
        return StillFollowing, handed, used;
      }
      var run := calls[used];
      used := used + 1;
      if run.fails {
        return Failed, handed, used;
      }
      if run.final.Some? {
        if used == |calls| {
          return StillFollowing, handed, used;
        }
        var rest := calls[used];
        used := used + 1;
        if rest.fails || |Events(rest, after).0| == 0 {
          return Finished(run.final.value), handed, used;
        }
      }
    }
    return StillFollowing, handed, used;
  }
}
