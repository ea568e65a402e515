/** Priority-ordered thread lists.

    Every wait queue and the simplest ready queue is a list kept in the order of
    `_priq_dumb_add`: a newcomer goes in front of the first entry whose priority is
    strictly lower (a numerically larger `prio`), hence behind its equals.  The list is
    generic in its entries; `prio` reads the priority of an entry. */
module PriorityList {

  ghost predicate Sorted<T(!new)>(q: seq<T>, prio: T -> int) {
    forall i, j :: 0 <= i < j < |q| ==> prio(q[i]) <= prio(q[j])
  }

  /** The first place at or after `i` whose entry has strictly lower priority than `x`. */
  function Place<T>(q: seq<T>, x: T, prio: T -> int, i: nat): (k: nat)
    requires i <= |q|
    ensures i <= k <= |q|
    ensures forall j :: i <= j < k ==> prio(q[j]) <= prio(x)
    ensures k < |q| ==> prio(x) < prio(q[k])
    decreases |q| - i
  {
    if i == |q| || prio(x) < prio(q[i]) then i else Place(q, x, prio, i + 1)
  }

  /** The list after `x` has been added. */
  function Insert<T>(q: seq<T>, x: T, prio: T -> int): seq<T> {
    var k := Place(q, x, prio, 0);
    q[..k] + [x] + q[k..]
  }

  /** `r` is `q` with `x` added behind every entry it does not outrank, up to the first one
      it does. */
  ghost predicate Joins<T>(q: seq<T>, r: seq<T>, x: T, prio: T -> int) {
    exists k :: JoinsAt(q, r, x, prio, k)
  }

  ghost predicate JoinsAt<T>(q: seq<T>, r: seq<T>, x: T, prio: T -> int, k: int) {
    && 0 <= k <= |q| && r == q[..k] + [x] + q[k..]
    && (forall i :: 0 <= i < k ==> prio(q[i]) <= prio(x)) && (k < |q| ==> prio(x) < prio(q[k]))
  }

  /** `rank` and `prio` may be two ways of reading the same priorities. */
  lemma InsertJoins<T(!new)>(q: seq<T>, x: T, prio: T -> int, rank: T -> int)
    requires forall y :: rank(y) == prio(y)
    ensures Joins(q, Insert(q, x, prio), x, rank)
  {
    assert JoinsAt(q, Insert(q, x, prio), x, rank, Place(q, x, prio, 0));
  }

  /** The list without its entry number `i`. */
  function RemoveAt<T>(q: seq<T>, i: nat): seq<T>
    requires i < |q|
  {
    q[..i] + q[i + 1..]
  }

  lemma InsertKeepsSorted<T(!new)>(q: seq<T>, x: T, prio: T -> int)
    requires Sorted(q, prio)
    ensures Sorted(Insert(q, x, prio), prio)
  {
    var k := Place(q, x, prio, 0);
    forall i | k <= i < |q| ensures prio(x) < prio(q[i]) {
      assert prio(q[k]) <= prio(q[i]);
    }
  }

  lemma RemoveKeepsSorted<T(!new)>(q: seq<T>, i: nat, prio: T -> int)
    requires i < |q| && Sorted(q, prio)
    ensures Sorted(RemoveAt(q, i), prio)
  {
  }

  lemma SplitAt<T>(q: seq<T>, i: nat)
    requires i < |q|
    ensures q == q[..i] + [q[i]] + q[i + 1..]
  {
  }

  lemma InsertMembers<T>(q: seq<T>, x: T, prio: T -> int)
    ensures forall t :: t in Insert(q, x, prio) <==> t == x || t in q
  {
    var k := Place(q, x, prio, 0);
    forall t | t in q ensures t in Insert(q, x, prio) {
      assert t in q[..k] || t in q[k..] by { assert q == q[..k] + q[k..]; }
    }
  }

  ghost predicate NoRepeats<T>(q: seq<T>) {
    forall i, j :: 0 <= i < j < |q| ==> q[i] != q[j]
  }

  lemma InsertNoRepeats<T>(q: seq<T>, x: T, prio: T -> int)
    requires x !in q && NoRepeats(q)
    ensures NoRepeats(Insert(q, x, prio))
  {
    var k := Place(q, x, prio, 0);
    var r := Insert(q, x, prio);
    forall i, j | 0 <= i < j < |r| ensures r[i] != r[j] {
      assert i != k ==> r[i] == q[if i < k then i else i - 1];
      assert j != k ==> r[j] == q[if j < k then j else j - 1];
    }
  }

  lemma RemoveNoRepeats<T>(q: seq<T>, i: nat)
    requires i < |q| && NoRepeats(q)
    ensures NoRepeats(RemoveAt(q, i)) && q[i] !in RemoveAt(q, i)
    ensures forall t :: t in RemoveAt(q, i) ==> t in q
  {
  }

  /** The list walk of `_priq_dumb_add`. */
  method Add<T>(q: seq<T>, x: T, prio: T -> int) returns (r: seq<T>)
    ensures r == Insert(q, x, prio)
  {
    var i := 0;
    while i < |q|
      invariant 0 <= i <= |q|
      invariant Place(q, x, prio, 0) == Place(q, x, prio, i)
    {
      if prio(x) < prio(q[i]) {
        return q[..i] + [x] + q[i..];
      }
      i := i + 1;
    }
    r := q + [x];
  }
}
