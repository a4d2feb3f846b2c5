/** The browser's side of a topic: it keeps the last cursor it saw, drops what it has seen, and asks from there
    when it reconnects. */
module Live {
  import opened Lists

  /** A frame's cursor; 0 marks a live-only frame such as an edit. */
  type Cursor = int

  /** What the handlers get from a run of frames when the last cursor seen is c (None: no cursor yet). */
  function Handled(c: Option<Cursor>, frames: seq<Cursor>): seq<Cursor>
    decreases |frames|
  {
    if frames == [] then []
    else
      var k := frames[0];
      if k > 0 && c.Some? && k <= c.value then Handled(c, frames[1..])
      else [k] + Handled(if k > 0 then Some(k) else c, frames[1..])
  }

  function CursorAfter(c: Option<Cursor>, frames: seq<Cursor>): Option<Cursor>
    decreases |frames|
  {
    if frames == [] then c
    else
      var k := frames[0];
      CursorAfter(if k > 0 && (c.None? || k > c.value) then Some(k) else c, frames[1..])
  }

  class LiveTopic {
    var cursor: Option<Cursor>
    var handled: seq<Cursor>

    constructor (after: Option<Cursor>)
      ensures cursor == after && handled == []
    {
      cursor, handled := after, [];
    }

    method OnMessage(k: Cursor)
      modifies this
      ensures cursor == CursorAfter(old(cursor), [k]) && handled == old(handled) + Handled(old(cursor), [k])
    {
      if k > 0 {
        if cursor.Some? && k <= cursor.value {
          return; // seen
        }
        cursor := Some(k);
      }
      handled := handled + [k];
    }
  }

  /** One connection after another: the cursor carries over. */
  lemma {:induction false} Reconnect(c: Option<Cursor>, a: seq<Cursor>, b: seq<Cursor>)
    ensures Handled(c, a + b) == Handled(c, a) + Handled(CursorAfter(c, a), b)
    ensures CursorAfter(c, a + b) == CursorAfter(CursorAfter(c, a), b)
    decreases |a|
  {
    if a == [] {
      assert a + b == b;
    } else {
      assert (a + b)[1..] == a[1..] + b;
      var k := a[0];
      Reconnect(if k > 0 && (c.None? || k > c.value) then Some(k) else c, a[1..], b);
    }
  }

  /** Cursors that only grow, from above c. */
  predicate Growing(c: Option<Cursor>, h: seq<Cursor>) {
    && (forall i :: 0 <= i < |h| && h[i] > 0 && c.Some? ==> h[i] > c.value)
    && (forall i, j :: 0 <= i < j < |h| && h[i] > 0 && h[j] > 0 ==> h[i] < h[j])
  }

  lemma GrowingCons(c: Option<Cursor>, k: Cursor, h: seq<Cursor>)
    requires k > 0 && c.Some? ==> k > c.value
    requires Growing(if k > 0 then Some(k) else c, h)
    ensures Growing(c, [k] + h)
  {
    var g := [k] + h;
    forall i, j | 0 <= i < j < |g| && g[i] > 0 && g[j] > 0
      ensures g[i] < g[j]
    {
      assert g[j] == h[j - 1];
      if i > 0 {
        assert g[i] == h[i - 1];
      }
    }
  }

  /** Nothing arrives twice, whatever the frames and however often the connection is replaced: the cursors handled
      only grow. */
  lemma {:induction false} NothingTwice(c: Option<Cursor>, frames: seq<Cursor>)
    ensures Growing(c, Handled(c, frames))
    decreases |frames|
  {
    if frames != [] {
      var k := frames[0];
      if k > 0 && c.Some? && k <= c.value {
        NothingTwice(c, frames[1..]);
      } else {
        NothingTwice(if k > 0 then Some(k) else c, frames[1..]);
        GrowingCons(c, k, Handled(if k > 0 then Some(k) else c, frames[1..]));
      }
    }
  }

  /** Above a cursor, frames come in the order of their cursors. */
  predicate InOrderAbove(frames: seq<Cursor>, after: Cursor) {
    forall i, j :: 0 <= i < j < |frames| && frames[i] > after && frames[j] > after ==> frames[i] < frames[j]
  }

  /** Every frame above the cursor is handled if and only if those frames come in order without repeats;
      a frame that comes after a larger one is dropped for good. */
  lemma {:induction false} NothingMissedIffInOrder(after: Cursor, frames: seq<Cursor>)
    requires after >= 0
    ensures InOrderAbove(frames, after) ==> Handled(Some(after), frames) == Above(frames, after)
    ensures !InOrderAbove(frames, after) ==> |Handled(Some(after), frames)| < |Above(frames, after)|
    decreases |frames|
  {
    if frames == [] {
    } else {
      var k, rest := frames[0], frames[1..];
      HandledAtMost(after, rest);
      if k > after {
        HandledAtMost(k, rest);
        AboveShrinks(rest, after, k);
        NothingMissedIffInOrder(k, rest);
        if InOrderAbove(frames, after) {
          assert forall j :: 0 <= j < |rest| && rest[j] > after ==> frames[0] < frames[j + 1];
          assert forall i, j :: 0 <= i < j < |rest| && rest[i] > k && rest[j] > k ==> frames[i + 1] < frames[j + 1];
        }
      } else {
        NothingMissedIffInOrder(after, rest);
        if InOrderAbove(frames, after) {
          assert forall i, j :: 0 <= i < j < |rest| && rest[i] > after && rest[j] > after ==>
              frames[i + 1] < frames[j + 1];
        } else {
          assert forall i, j :: 0 <= i < j < |frames| && frames[i] > after && frames[j] > after ==>
                   i > 0 && rest[i - 1] == frames[i] && rest[j - 1] == frames[j];
        }
      }
    }
  }

  /** The frames above a cursor or without one. */
  function Above(frames: seq<Cursor>, after: Cursor): seq<Cursor> {
    if frames == [] then []
    else (if frames[0] > after || frames[0] <= 0 then [frames[0]] else []) + Above(frames[1..], after)
  }

  lemma {:induction false} HandledAtMost(after: Cursor, frames: seq<Cursor>)
    requires after >= 0
    ensures |Handled(Some(after), frames)| <= |Above(frames, after)|
    decreases |frames|
  {
    if frames != [] {
      var k := frames[0];
      if k > after {
        HandledAtMost(k, frames[1..]);
        AboveShrinks(frames[1..], after, k);
      } else {
        HandledAtMost(after, frames[1..]);
      }
    }
  }

  /** A higher cursor lets fewer frames through, and as many only when nothing lies between. */
  lemma {:induction false} AboveShrinks(frames: seq<Cursor>, low: Cursor, high: Cursor)
    requires 0 <= low <= high
    ensures |Above(frames, high)| <= |Above(frames, low)|
    ensures |Above(frames, high)| == |Above(frames, low)|
       <==> forall i :: 0 <= i < |frames| && frames[i] > low ==> frames[i] > high
    ensures |Above(frames, high)| == |Above(frames, low)| ==> Above(frames, high) == Above(frames, low)
  {
    if frames != [] {
      AboveShrinks(frames[1..], low, high);
      assert (forall i :: 0 <= i < |frames| && frames[i] > low ==> frames[i] > high) <==>
             (frames[0] > low ==> frames[0] > high) &&
             (forall i :: 0 <= i < |frames[1..]| && frames[1..][i] > low ==> frames[1..][i] > high) by {
        assert forall i :: 0 < i < |frames| ==> frames[i] == frames[1..][i - 1];
        assert forall i :: 0 <= i < |frames[1..]| ==> frames[1..][i] == frames[i + 1];
      }
    }
  }

  /** In-order frames above the cursor are all handled. */
  lemma {:induction false} AllHandled(after: Cursor, frames: seq<Cursor>, k: Cursor)
    requires after >= 0 && InOrderAbove(frames, after) && k > after && k in frames
    ensures k in Handled(Some(after), frames)
    decreases |frames|
  {
    var x, rest := frames[0], frames[1..];
    assert forall i, j :: 0 <= i < j < |rest| && rest[i] > after && rest[j] > after ==> frames[i + 1] < frames[j + 1];
    if k != x {
      var i :| 0 <= i < |frames| && frames[i] == k;
      assert rest[i - 1] == k;
      if x > after {
        assert frames[0] < frames[i];
        AllHandled(x, rest, k);
      } else {
        AllHandled(after, rest, k);
      }
    }
  }
}
