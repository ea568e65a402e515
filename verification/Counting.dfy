/** Counting entries of a list. */
module Counting {
  import opened PriorityList

  function Count<T>(q: seq<T>, p: T -> bool): nat {
    if q == [] then 0 else One(p(q[0])) + Count(q[1..], p)
  }

  function One(b: bool): nat { if b then 1 else 0 }

  function Is(x: nat): nat -> bool { y => y == x }

  lemma {:induction false} CountConcat<T>(a: seq<T>, b: seq<T>, p: T -> bool)
    ensures Count(a + b, p) == Count(a, p) + Count(b, p)
  {
    if a == [] {
      assert a + b == b;
    } else {
      CountConcat(a[1..], b, p);
      assert (a + b)[1..] == a[1..] + b;
    }
  }

  lemma CountPush<T>(q: seq<T>, x: T, p: T -> bool)
    ensures Count(q + [x], p) == Count(q, p) + One(p(x))
  {
    CountConcat(q, [x], p);
  }

  lemma CountInsert<T>(q: seq<T>, x: T, prio: T -> int, p: T -> bool)
    ensures Count(Insert(q, x, prio), p) == Count(q, p) + One(p(x))
  {
    var k := Place(q, x, prio, 0);
    CountAround(q[..k], x, q[k..], p);
    assert q == q[..k] + q[k..];
  }

  lemma CountAround<T>(a: seq<T>, x: T, b: seq<T>, p: T -> bool)
    ensures Count(a + [x] + b, p) == Count(a + b, p) + One(p(x))
  {
    CountConcat(a + [x], b, p);
    CountPush(a, x, p);
    CountConcat(a, b, p);
  }

  lemma CountRemove<T>(q: seq<T>, i: nat, p: T -> bool)
    requires i < |q|
    ensures Count(RemoveAt(q, i), p) == Count(q, p) - One(p(q[i]))
  {
    CountAround(q[..i], q[i], q[i + 1..], p);
    SplitAt(q, i);
  }

  lemma CountUpdate<T>(q: seq<T>, i: nat, x: T, p: T -> bool)
    requires i < |q|
    ensures Count(q[i := x], p) == Count(q, p) - One(p(q[i])) + One(p(x))
  {
    CountRemove(q, i, p);
    CountRemove(q[i := x], i, p);
    assert RemoveAt(q[i := x], i) == RemoveAt(q, i);
  }

  lemma {:induction false} CountSome<T>(q: seq<T>, i: nat, p: T -> bool)
    requires i < |q| && p(q[i])
    ensures Count(q, p) > 0
  {
    if i > 0 { CountSome(q[1..], i - 1, p); }
  }
}
