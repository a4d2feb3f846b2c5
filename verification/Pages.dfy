/** Pages of a list ordered by seq, and walking through all of them. */
module Pages {
  import opened Lists

  const DEFAULT_LIMIT: nat := 100
  const MAX_LIMIT: nat := 1000

  type Seq = int

  /** 0 in `before` or `after` means not given. */
  datatype Page = Page(before: Seq, after: Seq, limit: int)

  function Limit(p: Page): (n: nat)
    ensures 0 < n <= MAX_LIMIT
  {
    if p.limit <= 0 then DEFAULT_LIMIT else if p.limit > MAX_LIMIT then MAX_LIMIT else p.limit
  }

  /** The rows' seqs, oldest first: unique and positive. */
  ghost predicate Table(rows: seq<Seq>) {
    && (forall i :: 0 <= i < |rows| ==> rows[i] > 0)
    && forall i, j :: 0 <= i < j < |rows| ==> rows[i] < rows[j]
  }

  /** How many rows are older than k. */
  function Below(rows: seq<Seq>, k: Seq): (n: nat)
    ensures n <= |rows|
  {
    if rows == [] || rows[0] >= k then 0 else 1 + Below(rows[1..], k)
  }

  lemma {:induction false} BelowSplits(rows: seq<Seq>, k: Seq)
    ensures forall i :: 0 <= i < Below(rows, k) ==> rows[i] < k
    ensures Below(rows, k) < |rows| ==> rows[Below(rows, k)] >= k
  {
    if rows != [] && rows[0] < k {
      BelowSplits(rows[1..], k);
      forall i | 0 <= i < Below(rows, k) ensures rows[i] < k {
        if i > 0 {
          assert rows[i] == rows[1..][i - 1];
        }
      }
    }
  }

  lemma BelowIs(rows: seq<Seq>, k: Seq, n: nat)
    requires Table(rows) && n <= |rows|
    requires n > 0 ==> rows[n - 1] < k
    requires n < |rows| ==> rows[n] >= k
    ensures Below(rows, k) == n
  {
    BelowSplits(rows, k);
  }

  // --- one query ---

  function Least(a: nat, b: nat): nat {
    if a < b then a else b
  }

  /** The rows [lo, hi) a page selects: the oldest ones after its cursor, else the newest ones before it. */
  function Lo(rows: seq<Seq>, p: Page): (lo: nat)
    ensures lo <= |rows|
  {
    if p.after > 0 then Below(rows, p.after + 1)
    else
      var hi := Hi(rows, p);
      if hi > Limit(p) then hi - Limit(p) else 0
  }

  function Hi(rows: seq<Seq>, p: Page): (hi: nat)
    ensures hi <= |rows|
  {
    if p.after > 0 then Least(Below(rows, p.after + 1) + Limit(p), |rows|)
    else if p.before > 0 then Below(rows, p.before)
    else |rows|
  }

  /** Whether rows are left in the direction the page was read. */
  predicate More(rows: seq<Seq>, p: Page) {
    if p.after > 0 then Hi(rows, p) < |rows| else Lo(rows, p) > 0
  }

  /** The SQL: the matching rows, in the order of the query, one more than the limit. */
  function Query(rows: seq<Seq>, p: Page): seq<Seq> {
    var n := Limit(p) + 1;
    if p.after > 0 then
      var from := Below(rows, p.after + 1);
      rows[from..Least(from + n, |rows|)]
    else
      var hi := Hi(rows, p);
      Reversed(rows[(if hi > n then hi - n else 0)..hi])
  }

  /** Reverses a[..n] in place. */
  method ReverseInPlace(a: array<Seq>, n: nat)
    requires n <= a.Length
    modifies a
    ensures a[..n] == Reversed(old(a[..n]))
  {
    ghost var was := a[..n];
    var i := 0;
    while i < n / 2
      invariant 0 <= i <= n / 2
      invariant forall k :: 0 <= k < i ==> a[k] == was[n - 1 - k] && a[n - 1 - k] == was[k]
      invariant forall k :: i <= k < n - i ==> a[k] == was[k]
    {
      a[i], a[n - 1 - i] := a[n - 1 - i], a[i];
      i := i + 1;
    }
    assert a[..n] == Reversed(was);
  }

  lemma QueryIsWindow(rows: seq<Seq>, p: Page)
    requires Lo(rows, p) <= Hi(rows, p)
    ensures
      var q := Query(rows, p);
      var w := rows[Lo(rows, p)..Hi(rows, p)];
      var shown := if |q| > Limit(p) then q[..Limit(p)] else q;
      (|q| > Limit(p) <==> More(rows, p)) && shown == if p.after > 0 then w else Reversed(w)
  {}

  lemma LoBelowHi(rows: seq<Seq>, p: Page)
    ensures Lo(rows, p) <= Hi(rows, p)
  {}

  /** The rows a query found, cut to the limit and turned around when asked for. */
  method CutAndTurn(found: seq<Seq>, limit: nat, turn: bool) returns (items: seq<Seq>, hasMore: bool)
    ensures hasMore <==> |found| > limit
    ensures items == (var shown := if |found| > limit then found[..limit] else found;
                      if turn then Reversed(shown) else shown)
  {
    var a := new Seq[|found|];
    var n := 0;
    while n < |found|
      invariant 0 <= n <= |found| && a[..n] == found[..n]
    {
      a[n] := found[n];
      n := n + 1;
    }
    assert a[..n] == found;
    hasMore := n > limit;
    if hasMore {
      n := limit;
    }
    assert a[..n] == found[..n];
    if turn {
      ReverseInPlace(a, n);
    }
    items := a[..n];
  }

  /** Reads a page: the window's rows in the order asked for, and whether there are more of them. */
  method Paged(rows: seq<Seq>, p: Page, newestFirst: bool) returns (items: seq<Seq>, hasMore: bool)
    ensures Lo(rows, p) <= Hi(rows, p)
    ensures items == (var w := rows[Lo(rows, p)..Hi(rows, p)]; if newestFirst then Reversed(w) else w)
    ensures hasMore <==> More(rows, p)
    ensures hasMore ==> |items| == (if p.limit <= 0 then 100 else if p.limit > 1000 then 1000 else p.limit)
  {
    LoBelowHi(rows, p);
    QueryIsWindow(rows, p);
    TwiceReversed(rows[Lo(rows, p)..Hi(rows, p)]);
    var desc := p.after <= 0;
    items, hasMore := CutAndTurn(Query(rows, p), Limit(p), desc != newestFirst);
  }

  lemma TwiceReversed(xs: seq<Seq>)
    ensures Reversed(Reversed(xs)) == xs
  {}

  /** A page in the rows' own terms: only rows on the cursor's far side, the nearest to it, all of them when has_more is
      false, and at most as many as asked for (100 when not said, never more than 1000). */
  lemma PageIsNearest(rows: seq<Seq>, p: Page)
    requires Table(rows)
    ensures Lo(rows, p) <= Hi(rows, p)
    ensures var w := rows[Lo(rows, p)..Hi(rows, p)];
      && |w| <= (if p.limit <= 0 then 100 else if p.limit > 1000 then 1000 else p.limit)
      && (forall r :: r in w ==> r in rows && Beyond(p, r))
      && (forall r, x :: r in rows && Beyond(p, r) && r !in w && x in w ==> if p.after > 0 then x < r else r < x)
      && (!More(rows, p) ==> forall r :: r in rows && Beyond(p, r) ==> r in w)
  {
    LoBelowHi(rows, p);
    BelowSplits(rows, p.after + 1);
    BelowSplits(rows, p.before);
    var lo, hi := Lo(rows, p), Hi(rows, p);
    assert forall i :: lo <= i < hi ==> rows[i] == rows[lo..hi][i - lo];
  }

  /** On the far side of the page's cursor. */
  predicate Beyond(p: Page, r: Seq) {
    if p.after > 0 then r > p.after else p.before > 0 ==> r < p.before
  }

  // --- walking ---

  /** The list grows at its newer end: tables[k] is what it holds when the k-th page is read. */
  ghost predicate Growing(tables: seq<seq<Seq>>) {
    tables == []
    || (var n := |tables| - 1;
        Table(tables[n]) && Growing(tables[..n]) && (n > 0 ==> tables[n - 1] <= tables[n]))
  }

  lemma {:induction false} GrowingAt(tables: seq<seq<Seq>>, j: nat, k: nat)
    requires Growing(tables) && j <= k < |tables|
    ensures Table(tables[j]) && Table(tables[k]) && tables[j] <= tables[k]
  {
    var n := |tables| - 1;
    if k < n {
      GrowingAt(tables[..n], j, k);
    } else if j < n {
      GrowingAt(tables[..n], j, n - 1);
    }
  }

  function Window(rows: seq<Seq>, p: Page): seq<Seq> {
    LoBelowHi(rows, p);
    rows[Lo(rows, p)..Hi(rows, p)]
  }

  /** Everything read newest to oldest from the k-th table on, each page before the oldest row seen, until has_more
      is false or the tables are used up. */
  function WalkBack(tables: seq<seq<Seq>>, k: nat, before: Seq, limit: int): seq<Seq>
    decreases |tables| - k
  {
    if k >= |tables| then []
    else
      var p := Page(before, 0, limit);
      var w := Window(tables[k], p);
      Reversed(w) + if More(tables[k], p) && w != [] then WalkBack(tables, k + 1, w[0], limit) else []
  }

  lemma ReversedConcat(xs: seq<Seq>, ys: seq<Seq>)
    ensures Reversed(xs + ys) == Reversed(ys) + Reversed(xs)
  {}

  /** Newer rows do not change what lies before a row already seen. */
  lemma BackPage(first: seq<Seq>, now: seq<Seq>, p: Page, left: nat)
    requires Table(first) && Table(now) && first <= now && 0 < left < |first|
    requires p.after == 0 && p.before == first[left]
    ensures Hi(now, p) == left && Lo(now, p) < left && (More(now, p) <==> Lo(now, p) > 0)
    ensures Window(now, p) == first[Lo(now, p)..left]
  {
    BelowIs(now, first[left], left);
  }

  lemma {:induction false} WalkBackFrom(tables: seq<seq<Seq>>, k: nat, left: nat, limit: int)
    requires Growing(tables) && 0 < k && k + left <= |tables|
    requires 0 < left < |tables[0]|
    ensures WalkBack(tables, k, tables[0][left], limit) == Reversed(tables[0][..left])
    decreases left
  {
    var first, now := tables[0], tables[k];
    var p := Page(first[left], 0, limit);
    GrowingAt(tables, 0, k);
    BackPage(first, now, p, left);
    var lo := Lo(now, p);
    assert first[..left] == first[..lo] + first[lo..left];
    ReversedConcat(first[..lo], first[lo..left]);
    if lo > 0 {
      WalkBackFrom(tables, k + 1, lo, limit);
    }
  }

  lemma FirstPage(rows: seq<Seq>, p: Page)
    requires p.after == 0 && p.before == 0
    ensures Hi(rows, p) == |rows| && Window(rows, p) == rows[Lo(rows, p)..]
    ensures More(rows, p) <==> Lo(rows, p) > 0
    ensures More(rows, p) ==> Lo(rows, p) < |rows|
  {}

  /** Main result: walking back from the newest page ends with every row there was at the start, each exactly once,
      newest first, though newer rows keep arriving. */
  lemma WalkBackSeesEachRowOnce(tables: seq<seq<Seq>>, limit: int)
    requires Growing(tables) && 0 < |tables| && |tables[0]| < |tables|
    ensures WalkBack(tables, 0, 0, limit) == Reversed(tables[0])
  {
    var first := tables[0];
    var p := Page(0, 0, limit);
    FirstPage(first, p);
    var lo := Lo(first, p);
    assert first == first[..lo] + first[lo..];
    ReversedConcat(first[..lo], first[lo..]);
    if lo > 0 {
      WalkBackFrom(tables, 1, lo, limit);
    } else {
      assert first[..lo] == [];
    }
  }

  /** Where a walk forwards got: what it saw, the last table it read, and the last has_more. */
  datatype Walk = Walk(seen: seq<Seq>, at: nat, more: bool)

  function WalkOn(tables: seq<seq<Seq>>, k: nat, after: Seq, limit: int): Walk
    requires k < |tables|
    decreases |tables| - k
  {
    var p := Page(0, after, limit);
    var w := Window(tables[k], p);
    if More(tables[k], p) && w != [] && k + 1 < |tables| then
      var rest := WalkOn(tables, k + 1, w[|w| - 1], limit);
      rest.(seen := w + rest.seen)
    else Walk(w, k, More(tables[k], p))
  }

  /** The walk saw the rows from `start` on, and has_more is false exactly when that is all there is. */
  ghost predicate Sees(tables: seq<seq<Seq>>, k: nat, start: nat, w: Walk) {
    && k <= w.at < |tables| && start + |w.seen| <= |tables[w.at]|
    && w.seen == tables[w.at][start..start + |w.seen|]
    && (w.more <==> start + |w.seen| < |tables[w.at]|)
    && (w.more ==> w.at == |tables| - 1)
  }

  lemma OnPage(now: seq<Seq>, p: Page)
    requires Table(now) && p.after > 0 && p.before == 0
    ensures var start := Below(now, p.after + 1);
      && start <= Hi(now, p) && Window(now, p) == now[start..Hi(now, p)]
      && (More(now, p) <==> Hi(now, p) < |now|)
      && (More(now, p) ==> start < Hi(now, p) && now[Hi(now, p) - 1] > 0)
  {}

  lemma Onwards(tables: seq<seq<Seq>>, k: nat, start: nat, next: nat, rest: Walk)
    requires Growing(tables) && k + 1 < |tables| && start <= next <= |tables[k]|
    requires Sees(tables, k + 1, next, rest)
    ensures Sees(tables, k, start, rest.(seen := tables[k][start..next] + rest.seen))
  {
    GrowingAt(tables, k, rest.at);
    var later := tables[rest.at];
    assert tables[k][start..next] + later[next..next + |rest.seen|] == later[start..next + |rest.seen|];
  }

  lemma NextCursor(now: seq<Seq>, later: seq<Seq>, next: nat)
    requires Table(later) && now <= later && 0 < next <= |now|
    ensures Below(later, now[next - 1] + 1) == next
  {
    BelowIs(later, now[next - 1] + 1, next);
  }

  /** What the walk does after the page [start, next). */
  ghost predicate GoesOn(tables: seq<seq<Seq>>, k: nat, start: nat, next: nat, limit: int, w: Walk)
    requires k < |tables| && start <= next <= |tables[k]|
    requires next < |tables[k]| ==> next > 0
  {
    if next < |tables[k]| && k + 1 < |tables| then
      var rest := WalkOn(tables, k + 1, tables[k][next - 1], limit);
      w == rest.(seen := tables[k][start..next] + rest.seen)
    else w == Walk(tables[k][start..next], k, next < |tables[k]|)
  }

  lemma WalkOnGoesOn(tables: seq<seq<Seq>>, k: nat, after: Seq, limit: int) returns (start: nat, next: nat)
    requires k < |tables| && Table(tables[k]) && after > 0
    ensures start == Below(tables[k], after + 1) && start <= next <= |tables[k]|
    ensures next < |tables[k]| ==> next > 0 && tables[k][next - 1] > 0
    ensures GoesOn(tables, k, start, next, limit, WalkOn(tables, k, after, limit))
  {
    start, next := Below(tables[k], after + 1), Hi(tables[k], Page(0, after, limit));
    OnPage(tables[k], Page(0, after, limit));
  }

  lemma {:induction false} SeesEachRowOnce(tables: seq<seq<Seq>>, k: nat, start: nat, next: nat, limit: int, w: Walk)
    requires Growing(tables) && k < |tables| && start <= next <= |tables[k]|
    requires next < |tables[k]| ==> next > 0 && tables[k][next - 1] > 0
    requires GoesOn(tables, k, start, next, limit, w)
    ensures Sees(tables, k, start, w)
    decreases |tables| - k
  {
    var now := tables[k];
    if next < |now| && k + 1 < |tables| {
      GrowingAt(tables, k, k + 1);
      NextCursor(now, tables[k + 1], next);
      var s, n := WalkOnGoesOn(tables, k + 1, now[next - 1], limit);
      var rest := WalkOn(tables, k + 1, now[next - 1], limit);
      SeesEachRowOnce(tables, k + 1, s, n, limit, rest);
      Onwards(tables, k, start, next, rest);
    }
  }

  /** Walking on from a row misses nothing and repeats nothing: what was seen are the rows that follow it, and
      has_more is false exactly when they are all there is. */
  lemma WalkOnSeesEachRowOnce(tables: seq<seq<Seq>>, k: nat, after: Seq, limit: int)
    requires Growing(tables) && k < |tables| && after > 0
    ensures Sees(tables, k, Below(tables[k], after + 1), WalkOn(tables, k, after, limit))
  {
    GrowingAt(tables, k, k);
    var start, next := WalkOnGoesOn(tables, k, after, limit);
    SeesEachRowOnce(tables, k, start, next, limit, WalkOn(tables, k, after, limit));
  }
}
