/** The three interchangeable thread queues of the scheduler: the sorted list, the
    32-list multiqueue with its bitmask, and the tree ordered by priority and order key. */
module ReadyQueues {
  import opened Basics
  import opened PriorityList

  datatype Thread = Thread(id: nat, prio: int)

  function Prio(t: Thread): int { t.prio }

  ghost predicate Distinct(q: seq<Thread>) {
    forall i, j :: 0 <= i < j < |q| ==> q[i].id != q[j].id
  }

  /** Unlinks a thread (`sys_dlist_remove`). */
  function Without(q: seq<Thread>, id: nat): seq<Thread> {
    if q == [] then [] else if q[0].id == id then q[1..] else [q[0]] + Without(q[1..], id)
  }

  lemma {:induction false} WithoutInFirst(a: seq<Thread>, b: seq<Thread>, id: nat, k: nat)
    requires k < |a| && a[k].id == id
    ensures Without(a + b, id) == Without(a, id) + b
    decreases |a|
  {
    assert (a + b)[1..] == a[1..] + b;
    if a[0].id != id {
      WithoutInFirst(a[1..], b, id, k - 1);
      assert ([a[0]] + Without(a[1..], id)) + b == [a[0]] + (Without(a[1..], id) + b);
    }
  }

  lemma {:induction false} WithoutInSecond(a: seq<Thread>, b: seq<Thread>, id: nat)
    requires forall i :: 0 <= i < |a| ==> a[i].id != id
    ensures Without(a + b, id) == a + Without(b, id)
    decreases |a|
  {
    if a == [] {
      assert a + b == b;
    } else {
      assert (a + b)[1..] == a[1..] + b;
      WithoutInSecond(a[1..], b, id);
      assert [a[0]] + (a[1..] + Without(b, id)) == a + Without(b, id);
    }
  }

  lemma {:induction false} WithoutMembers(q: seq<Thread>, id: nat)
    requires Distinct(q)
    ensures forall t :: t in Without(q, id) <==> t in q && t.id != id
  {
    if q != [] {
      WithoutMembers(q[1..], id);
      assert q == [q[0]] + q[1..];
    }
  }

  // ---------- the multiqueue ----------

  const LISTS: nat := 32

  function Flat(qs: seq<seq<Thread>>): seq<Thread> {
    if qs == [] then [] else qs[0] + Flat(qs[1..])
  }

  lemma {:induction false} FlatConcat(a: seq<seq<Thread>>, b: seq<seq<Thread>>)
    ensures Flat(a + b) == Flat(a) + Flat(b)
  {
    if a == [] {
      assert a + b == b;
    } else {
      FlatConcat(a[1..], b);
      assert (a + b)[1..] == a[1..] + b;
      assert (a[0] + Flat(a[1..])) + Flat(b) == a[0] + (Flat(a[1..]) + Flat(b));
    }
  }

  lemma FlatSplit(qs: seq<seq<Thread>>, i: nat)
    requires i < |qs|
    ensures Flat(qs) == Flat(qs[..i]) + (qs[i] + Flat(qs[i + 1..]))
  {
    assert qs == qs[..i] + qs[i..] && qs[i..][1..] == qs[i + 1..];
    FlatConcat(qs[..i], qs[i..]);
  }

  lemma {:induction false} FlatMembers(qs: seq<seq<Thread>>, t: Thread)
    ensures t in Flat(qs) <==> exists i :: 0 <= i < |qs| && t in qs[i]
  {
    if qs != [] {
      FlatMembers(qs[1..], t);
      if i :| 0 <= i < |qs| && t in qs[i] {
        if i > 0 { assert qs[i] == qs[1..][i - 1]; }
      }
      if i :| 0 <= i < |qs[1..]| && t in qs[1..][i] { assert t in qs[i + 1]; }
    }
  }

  /** List number `i` holds the threads of priority `base + i`. */
  ghost predicate Bucketed(qs: seq<seq<Thread>>, base: int) {
    forall i, t :: 0 <= i < |qs| && t in qs[i] ==> t.prio == base + i
  }

  /** Appending to its priority's list is insertion into the sorted list. */
  lemma AddFlat(qs: seq<seq<Thread>>, base: int, t: Thread)
    requires Bucketed(qs, base) && 0 <= t.prio - base < |qs|
    ensures var i := t.prio - base;
            Flat(qs[i := qs[i] + [t]]) == Insert(Flat(qs), t, Prio) && Bucketed(qs[i := qs[i] + [t]], base)
  {
    var i := t.prio - base;
    var a, b := Flat(qs[..i]), Flat(qs[i + 1..]);
    FlatSplit(qs, i);
    FlatUpdate(qs, i, qs[i] + [t]);
    Middle(a, qs[i], t, b);
    UpTo(qs, base, i);
    Beyond(qs, base, i);
    InsertAt(a + qs[i], t, b);
  }

  lemma FlatUpdate(qs: seq<seq<Thread>>, i: nat, x: seq<Thread>)
    requires i < |qs|
    ensures Flat(qs[i := x]) == Flat(qs[..i]) + (x + Flat(qs[i + 1..]))
  {
    FlatSplit(qs[i := x], i);
    assert qs[i := x][..i] == qs[..i] && qs[i := x][i + 1..] == qs[i + 1..];
  }

  lemma Middle(a: seq<Thread>, q: seq<Thread>, t: Thread, b: seq<Thread>)
    ensures a + (q + b) == (a + q) + b && a + ((q + [t]) + b) == (a + q) + [t] + b
  {
  }

  lemma UpTo(qs: seq<seq<Thread>>, base: int, i: nat)
    requires Bucketed(qs, base) && i < |qs|
    ensures var a := Flat(qs[..i]) + qs[i]; forall k :: 0 <= k < |a| ==> Prio(a[k]) <= base + i
  {
    var a := Flat(qs[..i]) + qs[i];
    forall k | 0 <= k < |a| ensures Prio(a[k]) <= base + i {
      if k < |Flat(qs[..i])| {
        FlatMembers(qs[..i], a[k]);
        var j :| 0 <= j < i && a[k] in qs[..i][j];
        assert a[k] in qs[j];
      } else {
        assert a[k] in qs[i];
      }
    }
  }

  lemma Beyond(qs: seq<seq<Thread>>, base: int, i: nat)
    requires Bucketed(qs, base) && i < |qs|
    ensures var b := Flat(qs[i + 1..]); forall k :: 0 <= k < |b| ==> base + i < Prio(b[k])
  {
    var b := Flat(qs[i + 1..]);
    forall k | 0 <= k < |b| ensures base + i < Prio(b[k]) {
      FlatMembers(qs[i + 1..], b[k]);
      var j :| 0 <= j < |qs| - i - 1 && b[k] in qs[i + 1..][j];
      assert b[k] in qs[i + 1 + j];
    }
  }

  lemma InsertAt(a: seq<Thread>, t: Thread, b: seq<Thread>)
    requires forall k :: 0 <= k < |a| ==> Prio(a[k]) <= Prio(t)
    requires forall k :: 0 <= k < |b| ==> Prio(t) < Prio(b[k])
    ensures Insert(a + b, t, Prio) == a + [t] + b
  {
    var k := Place(a + b, t, Prio, 0);
    assert k <= |a| by {
      if |b| > 0 { assert (a + b)[|a|] == b[0]; }
    }
  }

  /** Unlinking from its priority's list is unlinking from the sorted list. */
  lemma RemoveFlat(qs: seq<seq<Thread>>, base: int, t: Thread)
    requires Bucketed(qs, base) && 0 <= t.prio - base < |qs| && t in qs[t.prio - base] && Distinct(Flat(qs))
    ensures var i := t.prio - base;
            Flat(qs[i := Without(qs[i], t.id)]) == Without(Flat(qs), t.id)
  {
    var i := t.prio - base;
    var q := Without(qs[i], t.id);
    var a, b := Flat(qs[..i]), Flat(qs[i + 1..]);
    FlatSplit(qs, i);
    FlatSplit(qs[i := q], i);
    assert qs[i := q][..i] == qs[..i] && qs[i := q][i + 1..] == qs[i + 1..];
    var k :| 0 <= k < |qs[i]| && qs[i][k] == t;
    forall j | 0 <= j < |a| ensures a[j].id != t.id {
      assert Flat(qs)[j] == a[j] && Flat(qs)[|a| + k] == t;
    }
    WithoutInSecond(a, qs[i] + b, t.id);
    WithoutInFirst(qs[i], b, t.id, k);
  }

  // The mask is an unsigned int; its bits are reached by halving.

  function Pow2(n: nat): nat { if n == 0 then 1 else 2 * Pow2(n - 1) }

  const MASKS: nat := 0x1_0000_0000

  lemma MasksIsPow2()
    ensures Pow2(LISTS) == MASKS
  {
    assert Pow2(8) == 256;
    assert Pow2(16) == 256 * Pow2(8);
    assert Pow2(24) == 256 * Pow2(16);
    assert Pow2(32) == 256 * Pow2(24);
  }

  predicate Bit(m: nat, i: nat)
    decreases i
  {
    if i == 0 then m % 2 == 1 else Bit(m / 2, i - 1)
  }

  /** `m | (1 << i)`. */
  function OrBit(m: nat, i: nat): nat
    decreases i
  {
    if i == 0 then m / 2 * 2 + 1 else OrBit(m / 2, i - 1) * 2 + m % 2
  }

  /** `m & ~(1 << i)`. */
  function AndNotBit(m: nat, i: nat): nat
    decreases i
  {
    if i == 0 then m / 2 * 2 else AndNotBit(m / 2, i - 1) * 2 + m % 2
  }

  lemma SetBit(m: nat, i: nat, j: nat)
    ensures Bit(OrBit(m, i), j) <==> i == j || Bit(m, j)
    ensures Bit(AndNotBit(m, i), j) <==> i != j && Bit(m, j)
  {
    OrSets(m, i, j);
    AndClears(m, i, j);
  }

  lemma Halves(a: nat, b: nat)
    requires b < 2
    ensures (a * 2 + b) / 2 == a && (a * 2 + b) % 2 == b
  {
  }

  lemma {:induction false} OrSets(m: nat, i: nat, j: nat)
    ensures Bit(OrBit(m, i), j) <==> i == j || Bit(m, j)
    decreases i
  {
    Halves(m / 2, 1);
    if i > 0 {
      Halves(OrBit(m / 2, i - 1), m % 2);
      if j > 0 { OrSets(m / 2, i - 1, j - 1); }
    }
  }

  lemma {:induction false} AndClears(m: nat, i: nat, j: nat)
    ensures Bit(AndNotBit(m, i), j) <==> i != j && Bit(m, j)
    decreases i
  {
    Halves(m / 2, 0);
    if i > 0 {
      Halves(AndNotBit(m / 2, i - 1), m % 2);
      if j > 0 { AndClears(m / 2, i - 1, j - 1); }
    }
  }

  lemma {:induction false} SetBitFits(m: nat, i: nat, n: nat)
    requires i < n && m < Pow2(n)
    ensures OrBit(m, i) < Pow2(n) && AndNotBit(m, i) < Pow2(n)
    decreases i
  {
    if i > 0 { SetBitFits(m / 2, i - 1, n - 1); }
  }

  lemma {:induction false} NoBits(m: nat, n: nat)
    requires m < Pow2(n) && forall j :: 0 <= j < n ==> !Bit(m, j)
    ensures m == 0
    decreases n
  {
    if n > 0 {
      assert !Bit(m, 0);
      forall j | 0 <= j < n - 1 ensures !Bit(m / 2, j) { assert !Bit(m, j + 1); }
      NoBits(m / 2, n - 1);
    }
  }

  lemma {:induction false} ZeroBits(i: nat)
    ensures !Bit(0, i)
  {
    if i > 0 { ZeroBits(i - 1); }
  }

  /** Count of trailing zeros from `i` on (`__builtin_ctz` from 0). */
  function Ctz(m: nat, i: nat): (k: nat)
    requires i <= LISTS
    ensures i <= k <= LISTS && (k < LISTS ==> Bit(m, k)) && forall j :: i <= j < k ==> !Bit(m, j)
    decreases LISTS - i
  {
    if i == LISTS || Bit(m, i) then i else Ctz(m, i + 1)
  }

  lemma CtzFinds(m: nat)
    requires 0 < m < MASKS
    ensures Ctz(m, 0) < LISTS
  {
    MasksIsPow2();
    if Ctz(m, 0) == LISTS { NoBits(m, LISTS); }
  }

  datatype Mq = Mq(queues: seq<seq<Thread>>, mask: nat)

  /** Bit `i` is set exactly when list `i` is not empty. */
  ghost predicate MqInv(m: Mq, base: int) {
    && |m.queues| == LISTS && Bucketed(m.queues, base) && Distinct(Flat(m.queues)) && m.mask < MASKS
    && forall i :: 0 <= i < LISTS ==> (Bit(m.mask, i) <==> m.queues[i] != [])
  }

  function MqAdd(m: Mq, base: int, t: Thread): Mq
    requires |m.queues| == LISTS && 0 <= t.prio - base < LISTS
  {
    var i := t.prio - base;
    Mq(m.queues[i := m.queues[i] + [t]], OrBit(m.mask, i))
  }

  function MqRemove(m: Mq, base: int, t: Thread): Mq
    requires |m.queues| == LISTS && 0 <= t.prio - base < LISTS
  {
    var i := t.prio - base;
    var q := Without(m.queues[i], t.id);
    Mq(m.queues[i := q], if q == [] then AndNotBit(m.mask, i) else m.mask)
  }

  function MqBest(m: Mq): Option<Thread>
    requires |m.queues| == LISTS
  {
    if m.mask == 0 || Ctz(m.mask, 0) == LISTS || m.queues[Ctz(m.mask, 0)] == [] then None
    else Some(m.queues[Ctz(m.mask, 0)][0])
  }

  function ListBest(q: seq<Thread>): Option<Thread> { if q == [] then None else Some(q[0]) }

  lemma InsertDistinct(q: seq<Thread>, t: Thread)
    requires Distinct(q) && forall u :: u in q ==> u.id != t.id
    ensures Distinct(Insert(q, t, Prio))
  {
  }

  lemma {:induction false} WithoutDistinct(q: seq<Thread>, id: nat)
    requires Distinct(q)
    ensures Distinct(Without(q, id))
  {
    if q != [] && q[0].id != id {
      WithoutDistinct(q[1..], id);
      WithoutMembers(q[1..], id);
      var r := Without(q[1..], id);
      forall k | 0 <= k < |r| ensures r[k].id != q[0].id { assert r[k] in r; }
    }
  }

  lemma {:induction false} WithoutSorted(q: seq<Thread>, id: nat)
    requires Sorted(q, Prio) && Distinct(q)
    ensures Sorted(Without(q, id), Prio)
  {
    if q != [] && q[0].id != id {
      WithoutSorted(q[1..], id);
      WithoutMembers(q[1..], id);
      var r := Without(q[1..], id);
      forall j | 0 <= j < |r| ensures Prio(q[0]) <= Prio(r[j]) { assert r[j] in q[1..]; }
    }
  }

  ghost predicate MaskOk(qs: seq<seq<Thread>>, mask: nat) {
    |qs| == LISTS && mask < MASKS && forall i :: 0 <= i < LISTS ==> (Bit(mask, i) <==> qs[i] != [])
  }

  /** The mask after list `i` was changed. */
  lemma MaskUpdate(qs: seq<seq<Thread>>, mask: nat, i: nat, q: seq<Thread>)
    requires MaskOk(qs, mask) && i < LISTS
    ensures q != [] ==> MaskOk(qs[i := q], OrBit(mask, i))
    ensures q == [] ==> MaskOk(qs[i := q], AndNotBit(mask, i))
    ensures (q != [] <==> qs[i] != []) ==> MaskOk(qs[i := q], mask)
  {
    MasksIsPow2();
    SetBitFits(mask, i, LISTS);
    forall j | 0 <= j < LISTS
      ensures (Bit(OrBit(mask, i), j) <==> i == j || Bit(mask, j))
              && (Bit(AndNotBit(mask, i), j) <==> i != j && Bit(mask, j))
    {
      SetBit(mask, i, j);
    }
  }

  lemma MqAddKeeps(m: Mq, base: int, t: Thread)
    requires MqInv(m, base) && 0 <= t.prio - base < LISTS && forall u :: u in Flat(m.queues) ==> u.id != t.id
    ensures MqInv(MqAdd(m, base, t), base) && Flat(MqAdd(m, base, t).queues) == Insert(Flat(m.queues), t, Prio)
  {
    var i := t.prio - base;
    AddFlat(m.queues, base, t);
    InsertDistinct(Flat(m.queues), t);
    MaskUpdate(m.queues, m.mask, i, m.queues[i] + [t]);
  }

  lemma BucketedWithout(qs: seq<seq<Thread>>, base: int, i: nat, id: nat)
    requires Bucketed(qs, base) && i < |qs| && Distinct(qs[i])
    ensures Bucketed(qs[i := Without(qs[i], id)], base)
  {
    WithoutMembers(qs[i], id);
  }

  lemma MqRemoveKeeps(m: Mq, base: int, t: Thread)
    requires MqInv(m, base) && t in Flat(m.queues)
    ensures 0 <= t.prio - base < LISTS && MqInv(MqRemove(m, base, t), base)
    ensures Flat(MqRemove(m, base, t).queues) == Without(Flat(m.queues), t.id)
  {
    FlatMembers(m.queues, t);
    var i := t.prio - base;
    RemoveFlat(m.queues, base, t);
    WithoutDistinct(Flat(m.queues), t.id);
    BucketDistinct(m.queues, i);
    BucketedWithout(m.queues, base, i, t.id);
    MaskUpdate(m.queues, m.mask, i, Without(m.queues[i], t.id));
  }

  lemma BucketDistinct(qs: seq<seq<Thread>>, i: nat)
    requires i < |qs| && Distinct(Flat(qs))
    ensures Distinct(qs[i])
  {
    FlatSplit(qs, i);
    var n := |Flat(qs[..i])|;
    forall j, k | 0 <= j < k < |qs[i]| ensures qs[i][j].id != qs[i][k].id {
      assert Flat(qs)[n + j] == qs[i][j] && Flat(qs)[n + k] == qs[i][k];
    }
  }

  /** The multiqueue's pick is the sorted list's head. */
  lemma MqBestIsHead(m: Mq, base: int)
    requires MqInv(m, base)
    ensures MqBest(m) == ListBest(Flat(m.queues))
  {
    var qs := m.queues;
    if m.mask == 0 {
      forall i | 0 <= i < LISTS ensures qs[i] == [] { ZeroBits(i); }
      if Flat(qs) != [] { FlatMembers(qs, Flat(qs)[0]); }
    } else {
      CtzFinds(m.mask);
      var k := Ctz(m.mask, 0);
      FlatSplit(qs, k);
      forall j | 0 <= j < k ensures qs[j] == [] { assert !Bit(m.mask, j); }
      if Flat(qs[..k]) != [] { FlatMembers(qs[..k], Flat(qs[..k])[0]); }
    }
  }
}
