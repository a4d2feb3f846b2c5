/** Counting, searching and ordered insertion over sequences. */
module Lists {

  datatype Option<+T> = None | Some(value: T)

  /** How many elements of xs satisfy p. */
  function Count<T>(xs: seq<T>, p: T -> bool): (n: nat)
    ensures n <= |xs|
  {
    if xs == [] then 0 else (if p(xs[0]) then 1 else 0) + Count(xs[1..], p)
  }

  /** A count is zero exactly when nothing satisfies p. */
  lemma {:induction false} CountZero<T>(xs: seq<T>, p: T -> bool)
    ensures Count(xs, p) == 0 <==> forall x :: x in xs ==> !p(x)
  {
    if xs != [] {
      assert xs == [xs[0]] + xs[1..];
      CountZero(xs[1..], p);
    }
  }

  lemma {:induction false} CountConcat<T>(a: seq<T>, b: seq<T>, p: T -> bool)
    ensures Count(a + b, p) == Count(a, p) + Count(b, p)
  {
    if a == [] {
      assert a + b == b;
    } else {
      assert (a + b)[1..] == a[1..] + b;
      CountConcat(a[1..], b, p);
    }
  }

  /** Two elements that both satisfy p sit at the same place when p holds at most once. */
  lemma CountAtMostOne<T>(xs: seq<T>, p: T -> bool, i: nat, j: nat)
    requires i < |xs| && j < |xs| && p(xs[i]) && p(xs[j])
    requires Count(xs, p) <= 1
    ensures i == j
  {
    if i < j {
      CountTwo(xs, p, i, j);
    } else if j < i {
      CountTwo(xs, p, j, i);
    }
  }

  lemma {:induction false} CountTwo<T>(xs: seq<T>, p: T -> bool, i: nat, j: nat)
    requires i < j < |xs| && p(xs[i]) && p(xs[j])
    ensures Count(xs, p) >= 2
  {
    assert xs == xs[..j] + xs[j..];
    CountConcat(xs[..j], xs[j..], p);
    CountZero(xs[..j], p);
    CountZero(xs[j..], p);
    assert xs[..j][i] in xs[..j];
    assert xs[j..][0] in xs[j..];
  }

  function Map<A, B>(xs: seq<A>, f: A -> B): (ys: seq<B>)
    ensures |ys| == |xs|
    ensures forall i :: 0 <= i < |xs| ==> ys[i] == f(xs[i])
  {
    seq(|xs|, i requires 0 <= i < |xs| => f(xs[i]))
  }

  function Reversed<T>(xs: seq<T>): (ys: seq<T>)
    ensures |ys| == |xs|
    ensures forall i :: 0 <= i < |xs| ==> ys[i] == xs[|xs| - 1 - i]
  {
    seq(|xs|, i requires 0 <= i < |xs| => xs[|xs| - 1 - i])
  }

  /** When p in ys implies q at the same place in xs, p cannot hold more often than q. */
  lemma {:induction false} CountPointwise<A, B>(xs: seq<A>, ys: seq<B>, q: A -> bool, p: B -> bool)
    requires |xs| == |ys|
    requires forall i :: 0 <= i < |xs| && p(ys[i]) ==> q(xs[i])
    ensures Count(ys, p) <= Count(xs, q)
  {
    if xs != [] {
      CountPointwise(xs[1..], ys[1..], q, p);
    }
  }

  /** The first element that satisfies p. */
  function First<T>(xs: seq<T>, p: T -> bool): (o: Option<T>)
    ensures o.Some? ==> p(o.value) && o.value in xs
    ensures o.None? <==> forall x :: x in xs ==> !p(x)
  {
    if xs == [] then None else if p(xs[0]) then Some(xs[0]) else First(xs[1..], p)
  }

  lemma {:induction false} FirstAt<T>(xs: seq<T>, p: T -> bool, i: nat)
    requires i < |xs| && p(xs[i])
    requires forall j :: 0 <= j < i ==> !p(xs[j])
    ensures First(xs, p) == Some(xs[i])
  {
    if i > 0 {
      assert !p(xs[0]);
      FirstAt(xs[1..], p, i - 1);
    }
  }

  /** Inserting an element that does not satisfy p does not change the first that does. */
  lemma {:induction false} FirstSkips<T>(xs: seq<T>, k: nat, x: T, p: T -> bool)
    requires k <= |xs| && !p(x)
    ensures First(xs[..k] + [x] + xs[k..], p) == First(xs, p)
  {
    var ys := xs[..k] + [x] + xs[k..];
    if k == 0 {
      assert ys == [x] + xs;
      assert ys[1..] == xs;
    } else {
      assert ys[0] == xs[0];
      assert ys[1..] == xs[1..][..k - 1] + [x] + xs[1..][k - 1..];
      FirstSkips(xs[1..], k - 1, x, p);
    }
  }

  /** Where x goes in a list kept in the order `before`: after every leading element before it. */
  function Place<T>(xs: seq<T>, x: T, before: (T, T) -> bool): (k: nat)
    ensures k <= |xs|
    ensures forall i :: 0 <= i < k ==> before(xs[i], x)
    ensures k < |xs| ==> !before(xs[k], x)
  {
    if xs == [] || !before(xs[0], x) then 0 else 1 + Place(xs[1..], x, before)
  }

  function Insert<T(!new)>(xs: seq<T>, x: T, before: (T, T) -> bool): (ys: seq<T>)
    ensures |ys| == |xs| + 1
    ensures forall y :: y in ys <==> y == x || y in xs
  {
    var k := Place(xs, x, before);
    var ys := xs[..k] + [x] + xs[k..];
    assert forall y :: y in xs ==> y in xs[..k] || y in xs[k..];
    ys
  }

  lemma CountInsert<T(!new)>(xs: seq<T>, x: T, before: (T, T) -> bool, p: T -> bool)
    ensures Count(Insert(xs, x, before), p) == Count(xs, p) + (if p(x) then 1 else 0)
  {
    var k := Place(xs, x, before);
    assert xs == xs[..k] + xs[k..];
    CountConcat(xs[..k], xs[k..], p);
    CountConcat(xs[..k] + [x], xs[k..], p);
    CountConcat(xs[..k], [x], p);
  }

  ghost predicate Ordered<T>(xs: seq<T>, before: (T, T) -> bool) {
    forall i, j :: 0 <= i < j < |xs| ==> before(xs[i], xs[j])
  }

  /** Insertion keeps the order when `before` is transitive and decides between x and every element. */
  lemma InsertOrdered<T(!new)>(xs: seq<T>, x: T, before: (T, T) -> bool)
    requires Ordered(xs, before)
    requires forall y :: y in xs ==> before(y, x) || before(x, y)
    requires forall y, z :: y in xs && z in xs && before(x, y) && before(y, z) ==> before(x, z)
    ensures Ordered(Insert(xs, x, before), before)
  {
    var k := Place(xs, x, before);
    var ys := Insert(xs, x, before);
    forall i, j | 0 <= i < j < |ys|
      ensures before(ys[i], ys[j])
    {
      if i == k {
        assert xs[k] in xs && xs[j - 1] in xs;
        assert before(x, xs[k]);
        if j - 1 > k {
          assert before(xs[k], xs[j - 1]);
        }
      }
    }
  }
}
