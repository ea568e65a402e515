/** The tree-ordered thread queue.

    The tree is its in-order sequence, ordered by `_priq_rb_lessthan`: by priority, then by
    the unsigned 32-bit order key each thread is stamped with when it is added. */
module TreeQueue {
  import opened PriorityList
  import opened ReadyQueues

  const KEYS: nat := 0x1_0000_0000

  datatype Node = Node(thread: Thread, key: nat)

  datatype Tree = Tree(nodes: seq<Node>, next: nat)

  /** `_priq_rb_lessthan`. */
  predicate Less(a: Node, b: Node) {
    if a.thread.prio < b.thread.prio then true
    else if b.thread.prio < a.thread.prio then false
    else a.key < b.key
  }

  /** The order as a number. */
  function Rank(n: Node): int { n.thread.prio * KEYS + n.key }

  ghost predicate KeysFit(q: seq<Node>) { forall i :: 0 <= i < |q| ==> q[i].key < KEYS }

  lemma RankIsLess(a: Node, b: Node)
    requires a.key < KEYS && b.key < KEYS
    ensures Less(a, b) <==> Rank(a) < Rank(b)
  {
  }

  function Threads(q: seq<Node>): (r: seq<Thread>)
    ensures |r| == |q| && forall i :: 0 <= i < |q| ==> r[i] == q[i].thread
  {
    seq(|q|, i requires 0 <= i < |q| => q[i].thread)
  }

  /** The renumbering loop: keys 0, 1, 2, ... in tree order. */
  function Renumber(q: seq<Node>): (r: seq<Node>)
    ensures |r| == |q| && forall i :: 0 <= i < |q| ==> r[i] == Node(q[i].thread, i)
  {
    seq(|q|, i requires 0 <= i < |q| => Node(q[i].thread, i))
  }

  /** `_priq_rb_add`: stamp, renumber if the counter came round to 0, insert. */
  function RbAdd(s: Tree, t: Thread): Tree {
    Tree(Insert(Restamped(s), Node(t, s.next), Rank), if s.next + 1 == KEYS then |s.nodes| else s.next + 1)
  }

  /** The nodes the newcomer is inserted among. */
  function Restamped(s: Tree): seq<Node> { if s.next + 1 == KEYS then Renumber(s.nodes) else s.nodes }

  function Unlink(q: seq<Node>, id: nat): seq<Node> {
    if q == [] then [] else if q[0].thread.id == id then q[1..] else [q[0]] + Unlink(q[1..], id)
  }

  /** `_priq_rb_remove`: an empty tree restarts the counter. */
  function RbRemove(s: Tree, id: nat): Tree {
    var q := Unlink(s.nodes, id);
    Tree(q, if q == [] then 0 else s.next)
  }

  /** Strictly ordered, keys in range, and few enough threads to be stamped. */
  ghost predicate Ordered(q: seq<Node>) {
    KeysFit(q) && |q| < KEYS && forall i, j :: 0 <= i < j < |q| ==> Rank(q[i]) < Rank(q[j])
  }

  /** Since the queue was last empty the counter has not come round: every stamp in the
      tree is older than the next one. */
  ghost predicate Unwrapped(s: Tree) {
    |s.nodes| <= s.next < KEYS && forall i :: 0 <= i < |s.nodes| ==> s.nodes[i].key < s.next
  }

  /** On distinct stamps the comparison is a strict total order. */
  lemma LessIsTotal(a: Node, b: Node, c: Node)
    ensures !Less(a, a)
    ensures Less(a, b) ==> !Less(b, a)
    ensures Less(a, b) && Less(b, c) ==> Less(a, c)
    ensures a.key != b.key ==> Less(a, b) || Less(b, a)
  {
  }

  /** Renumbering keeps the tree's order. */
  lemma RenumberKeeps(q: seq<Node>)
    requires Ordered(q)
    ensures Ordered(Renumber(q)) && Threads(Renumber(q)) == Threads(q)
  {
    forall i, j | 0 <= i < j < |q| ensures Rank(Renumber(q)[i]) < Rank(Renumber(q)[j]) {
      assert Rank(q[i]) < Rank(q[j]);
      assert q[i].thread.prio <= q[j].thread.prio;
    }
  }

  /** No equal-priority thread in `q` carries a larger stamp than `key`. */
  ghost predicate Newest(q: seq<Node>, prio: int, key: nat) {
    forall i :: 0 <= i < |q| && q[i].thread.prio == prio ==> q[i].key <= key
  }

  lemma InsertAgreesIf(q: seq<Node>, t: Thread, key: nat)
    requires Ordered(q) && key < KEYS && Newest(q, t.prio, key)
    ensures Threads(Insert(q, Node(t, key), Rank)) == Insert(Threads(q), t, Prio)
  {
    var x := Node(t, key);
    var k := Place(q, x, Rank, 0);
    SplitByPrio(q, x, k);
    InsertAt(Threads(q[..k]), t, Threads(q[k..]));
    ThreadsSplit(q, x, k);
  }

  lemma ThreadsSplit(q: seq<Node>, x: Node, k: nat)
    requires k <= |q|
    ensures Threads(q) == Threads(q[..k]) + Threads(q[k..])
    ensures Threads(q[..k] + [x] + q[k..]) == Threads(q[..k]) + [x.thread] + Threads(q[k..])
  {
    var r, t := q[..k] + [x] + q[k..], Threads(q[..k]) + [x.thread] + Threads(q[k..]);
    forall i | 0 <= i < |r| ensures Threads(r)[i] == t[i] {
      assert r[i] == if i < k then q[i] else if i == k then x else q[i - 1];
    }
  }

  lemma SplitByPrio(q: seq<Node>, x: Node, k: nat)
    requires Ordered(q) && x.key < KEYS && Newest(q, x.thread.prio, x.key) && k == Place(q, x, Rank, 0)
    ensures forall j :: 0 <= j < |Threads(q[..k])| ==> Prio(Threads(q[..k])[j]) <= Prio(x.thread)
    ensures forall j :: 0 <= j < |Threads(q[k..])| ==> Prio(x.thread) < Prio(Threads(q[k..])[j])
  {
    forall j | 0 <= j < k ensures q[j].thread.prio <= x.thread.prio { RankIsLess(x, q[j]); }
    forall j | k <= j < |q| ensures x.thread.prio < q[j].thread.prio {
      assert Rank(x) < Rank(q[k]) <= Rank(q[j]);
      RankIsLess(x, q[j]);
    }
  }

  lemma InsertAgreesOnlyIf(q: seq<Node>, t: Thread, key: nat)
    requires Ordered(q) && key < KEYS && !Newest(q, t.prio, key)
    requires forall i :: 0 <= i < |q| ==> q[i].thread != t
    ensures Threads(Insert(q, Node(t, key), Rank)) != Insert(Threads(q), t, Prio)
  {
    var i :| 0 <= i < |q| && q[i].thread.prio == t.prio && key < q[i].key;
    var x, p := Node(t, key), Threads(q);
    var k, m := Place(q, x, Rank, 0), Place(p, t, Prio, 0);
    RankIsLess(x, q[i]);
    PrioUpTo(q, i);
    assert k <= i < m;
    DifferAt(q, x, k, m);
  }

  /** Inserted at different places, a new thread makes different sequences. */
  lemma DifferAt(q: seq<Node>, x: Node, k: nat, m: nat)
    requires k < m <= |q| && q[k].thread != x.thread
    ensures Threads(q[..k] + [x] + q[k..]) != Threads(q)[..m] + [x.thread] + Threads(q)[m..]
  {
    assert Threads(q[..k] + [x] + q[k..])[k] == x.thread;
    assert (Threads(q)[..m] + [x.thread] + Threads(q)[m..])[k] == q[k].thread;
  }

  /** In an ordered tree nothing before an entry has lower priority. */
  lemma PrioUpTo(q: seq<Node>, i: nat)
    requires Ordered(q) && i < |q|
    ensures forall j :: 0 <= j <= i ==> Prio(Threads(q)[j]) <= Prio(Threads(q)[i])
  {
    forall j | 0 <= j < i ensures q[j].thread.prio <= q[i].thread.prio { RankIsLess(q[i], q[j]); }
  }

  /** Adding to the tree agrees with adding to the sorted list exactly when no queued
      thread of the same priority carries a larger stamp. */
  lemma RbAddAgrees(s: Tree, t: Thread)
    requires Ordered(s.nodes) && s.next < KEYS && forall i :: 0 <= i < |s.nodes| ==> s.nodes[i].thread != t
    ensures Threads(RbAdd(s, t).nodes) == Insert(Threads(s.nodes), t, Prio) <==> Newest(Restamped(s), t.prio, s.next)
    ensures Unwrapped(s) ==> Newest(Restamped(s), t.prio, s.next)
  {
    RenumberKeeps(s.nodes);
    var q := Restamped(s);
    assert Ordered(q) && Threads(q) == Threads(s.nodes);
    if Newest(q, t.prio, s.next) {
      InsertAgreesIf(q, t, s.next);
    } else {
      InsertAgreesOnlyIf(q, t, s.next);
    }
  }

  /** A thread `d` joining and leaving the queue `n` times. */
  function Cycle(s: Tree, d: Thread, n: nat): Tree {
    if n == 0 then s else RbRemove(RbAdd(Cycle(s, d, n - 1), d), d.id)
  }

  lemma OneCycle(c: Thread, d: Thread, next: nat)
    requires d.id != c.id && 0 < next && next + 1 < KEYS
    ensures RbRemove(RbAdd(Tree([Node(c, 0)], next), d), d.id) == Tree([Node(c, 0)], next + 1)
  {
    var x, y := Node(c, 0), Node(d, next);
    var k := Place([x], y, Rank, 0);
    if k == 0 {
      assert Insert([x], y, Rank) == [y, x];
      assert [y, x][1..] == [x];
    } else {
      assert Insert([x], y, Rank) == [x, y];
      assert Unlink([x, y], d.id) == [x] + Unlink([x, y][1..], d.id);
      assert [x, y][1..] == [y];
      assert Unlink([y], d.id) == [];
    }
  }

  /** With `c` queued, others coming and going take the counter as far as it goes. */
  lemma {:induction false} CyclesCount(c: Thread, d: Thread, n: nat)
    requires d.id != c.id && n + 1 < KEYS
    ensures Cycle(RbAdd(Tree([], 0), c), d, n) == Tree([Node(c, 0)], n + 1)
  {
    if n > 0 {
      CyclesCount(c, d, n - 1);
      OneCycle(c, d, n);
    }
  }

  lemma WrapOrder(a: Thread, b: Thread, c: Thread)
    requires a.prio == b.prio == c.prio
    ensures Threads(RbAdd(RbAdd(Tree([Node(c, 0)], KEYS - 1), a), b).nodes) == [c, b, a]
  {
    var x, y := Node(a, KEYS - 1), Node(b, 1);
    assert Renumber([Node(c, 0)]) == [Node(c, 0)];
    assert Place([Node(c, 0)], x, Rank, 0) == 1;
    assert RbAdd(Tree([Node(c, 0)], KEYS - 1), a) == Tree([Node(c, 0), x], 1);
    assert Place([Node(c, 0), x], y, Rank, 0) == 1;
  }

  lemma ListOrder(a: Thread, b: Thread, c: Thread)
    requires a.prio == b.prio == c.prio
    ensures Insert(Insert([c], a, Prio), b, Prio) == [c, a, b]
  {
    assert Place([c], a, Prio, 0) == 1 && Insert([c], a, Prio) == [c, a];
    assert Place([c, a], b, Prio, 0) == 2;
  }

  /** First-in first-out is lost after the counter comes round: the thread stamped last
      keeps the largest key, and the next equal is queued in front of it.  The state it
      happens in is reached from the empty tree by `c` joining, and `d` joining and leaving
      2^32 - 2 times. */
  lemma FifoLostAtWrap(a: Thread, b: Thread, c: Thread, d: Thread, n: nat)
    requires a.prio == b.prio == c.prio && a.id != b.id && b.id != c.id && c.id != a.id && d.id != c.id
    requires n == KEYS - 2
    ensures var s := Cycle(RbAdd(Tree([], 0), c), d, n);
            && Threads(RbAdd(RbAdd(s, a), b).nodes) == [c, b, a]
            && Insert(Insert(Threads(s.nodes), a, Prio), b, Prio) == [c, a, b]
  {
    CyclesCount(c, d, n);
    WrapOrder(a, b, c);
    ListOrder(a, b, c);
    assert Threads([Node(c, 0)]) == [c];
  }

  lemma RbAddKeeps(s: Tree, t: Thread)
    requires Ordered(s.nodes) && Unwrapped(s) && s.next + 1 < KEYS
    requires forall i :: 0 <= i < |s.nodes| ==> s.nodes[i].thread.id != t.id
    ensures Ordered(RbAdd(s, t).nodes) && Unwrapped(RbAdd(s, t))
    ensures Threads(RbAdd(s, t).nodes) == Insert(Threads(s.nodes), t, Prio)
  {
    RbAddAgrees(s, t);
    InsertOrdered(s.nodes, Node(t, s.next));
    InsertKeys(s.nodes, Node(t, s.next), s.next + 1);
  }

  lemma InsertOrdered(q: seq<Node>, x: Node)
    requires Ordered(q) && |q| + 1 < KEYS && x.key < KEYS && forall i :: 0 <= i < |q| ==> q[i].key != x.key
    ensures Ordered(Insert(q, x, Rank))
  {
    var k := Place(q, x, Rank, 0);
    forall j | 0 <= j < k ensures Rank(q[j]) < Rank(x) {
      assert Rank(q[j]) != Rank(x) by { RankIsLess(q[j], x); RankIsLess(x, q[j]); }
    }
    forall j | k <= j < |q| ensures Rank(x) < Rank(q[j]) { assert Rank(q[k]) <= Rank(q[j]); }
    InsertKeys(q, x, KEYS);
  }

  lemma InsertKeys(q: seq<Node>, x: Node, bound: nat)
    requires x.key < bound && forall i :: 0 <= i < |q| ==> q[i].key < bound
    ensures forall i :: 0 <= i < |Insert(q, x, Rank)| ==> Insert(q, x, Rank)[i].key < bound
  {
  }

  lemma {:induction false} UnlinkThreads(q: seq<Node>, id: nat)
    ensures Threads(Unlink(q, id)) == Without(Threads(q), id)
    ensures |Unlink(q, id)| <= |q| && forall n :: n in Unlink(q, id) ==> n in q
  {
    if q != [] {
      UnlinkThreads(q[1..], id);
      assert Threads(q)[1..] == Threads(q[1..]);
      if q[0].thread.id != id {
        assert Threads([q[0]] + Unlink(q[1..], id)) == [q[0].thread] + Threads(Unlink(q[1..], id));
      }
    }
  }

  /** Unlinking removes one entry or none. */
  lemma {:induction false} UnlinkAt(q: seq<Node>, id: nat) returns (i: nat)
    ensures i <= |q| && Unlink(q, id) == if i < |q| then RemoveAt(q, i) else q
  {
    if q == [] {
      i := 0;
    } else if q[0].thread.id == id {
      i := 0;
      assert RemoveAt(q, 0) == q[1..];
    } else {
      i := UnlinkAt(q[1..], id);
      if i < |q| - 1 { assert RemoveAt(q, i + 1) == [q[0]] + RemoveAt(q[1..], i); }
      i := i + 1;
    }
  }

  lemma RemoveOrdered(q: seq<Node>, i: nat)
    requires Ordered(q) && i < |q|
    ensures Ordered(RemoveAt(q, i))
  {
    var r := RemoveAt(q, i);
    assert forall j :: 0 <= j < |r| ==> r[j] == q[if j < i then j else j + 1];
  }

  lemma UnlinkOrdered(q: seq<Node>, id: nat)
    requires Ordered(q)
    ensures Ordered(Unlink(q, id))
  {
    var i := UnlinkAt(q, id);
    if i < |q| { RemoveOrdered(q, i); }
  }

  lemma RbRemoveKeeps(s: Tree, id: nat)
    requires Ordered(s.nodes) && Unwrapped(s)
    ensures Ordered(RbRemove(s, id).nodes) && Unwrapped(RbRemove(s, id))
    ensures Threads(RbRemove(s, id).nodes) == Without(Threads(s.nodes), id)
  {
    UnlinkThreads(s.nodes, id);
    UnlinkOrdered(s.nodes, id);
    var r := Unlink(s.nodes, id);
    forall i | 0 <= i < |r| ensures r[i].key < s.next { assert r[i] in s.nodes; }
  }

  // ---------- across the wrap ----------

  /** Stamps differ; all but the one given out last before a wrap are older than the next. */
  ghost predicate Stamped(s: Tree) {
    && s.next < KEYS
    && (forall i, j :: 0 <= i < j < |s.nodes| ==> s.nodes[i].key != s.nodes[j].key)
    && (forall i :: 0 <= i < |s.nodes| ==> s.nodes[i].key < s.next || s.nodes[i].key == KEYS - 1)
  }

  lemma InsertedAt(q: seq<Node>, x: Node, i: nat)
    requires i <= |q|
    ensures var k := Place(q, x, Rank, 0);
            Insert(q, x, Rank)[i] == if i < k then q[i] else if i == k then x else q[i - 1]
  {
  }

  lemma InsertStamped(q: seq<Node>, x: Node, next: nat)
    requires next < KEYS && (x.key < next || x.key == KEYS - 1)
    requires forall i, j :: 0 <= i < j < |q| ==> q[i].key != q[j].key
    requires forall i :: 0 <= i < |q| ==> (q[i].key < next || q[i].key == KEYS - 1) && q[i].key != x.key
    ensures Stamped(Tree(Insert(q, x, Rank), next))
  {
    var r := Insert(q, x, Rank);
    forall i | 0 <= i < |r| ensures r[i].key < next || r[i].key == KEYS - 1 { InsertedAt(q, x, i); }
    forall i, j | 0 <= i < j < |r| ensures r[i].key != r[j].key {
      InsertedAt(q, x, i);
      InsertedAt(q, x, j);
    }
  }

  /** An add keeps the tree strictly ordered, wrap or no wrap. */
  lemma RbAddStamped(s: Tree, t: Thread)
    requires Ordered(s.nodes) && Stamped(s) && |s.nodes| + 1 < KEYS
    ensures Ordered(RbAdd(s, t).nodes) && Stamped(RbAdd(s, t))
  {
    var q, x := Restamped(s), Node(t, s.next);
    RenumberKeeps(s.nodes);
    InsertOrdered(q, x);
    InsertStamped(q, x, RbAdd(s, t).next);
  }

  /** What an add does to the tree and to the order of its threads. */
  lemma RbAddFacts(s: Tree, t: Thread)
    requires Ordered(s.nodes) && Stamped(s) && |s.nodes| + 1 < KEYS
    ensures Ordered(RbAdd(s, t).nodes) && Stamped(RbAdd(s, t))
    ensures Unwrapped(s) && (forall i :: 0 <= i < |s.nodes| ==> s.nodes[i].thread != t) ==>
              Threads(RbAdd(s, t).nodes) == Insert(Threads(s.nodes), t, Prio)
  {
    RbAddStamped(s, t);
    if Unwrapped(s) && forall i :: 0 <= i < |s.nodes| ==> s.nodes[i].thread != t { RbAddAgrees(s, t); }
  }

  lemma RemoveStamped(q: seq<Node>, i: nat, next: nat)
    requires Stamped(Tree(q, next)) && i < |q|
    ensures Stamped(Tree(RemoveAt(q, i), next)) && (RemoveAt(q, i) == [] ==> Stamped(Tree([], 0)))
  {
    var r := RemoveAt(q, i);
    assert forall j :: 0 <= j < |r| ==> r[j] == q[if j < i then j else j + 1];
  }

  lemma RbRemoveStamped(s: Tree, id: nat)
    requires Ordered(s.nodes) && Stamped(s)
    ensures Ordered(RbRemove(s, id).nodes) && Stamped(RbRemove(s, id))
  {
    UnlinkOrdered(s.nodes, id);
    var i := UnlinkAt(s.nodes, id);
    if i < |s.nodes| { RemoveStamped(s.nodes, i, s.next); }
  }

  /** A strictly ordered tree is in priority order. */
  lemma OrderedByPrio(q: seq<Node>)
    requires Ordered(q)
    ensures Sorted(Threads(q), Prio)
  {
    forall i, j | 0 <= i < j < |q| ensures Prio(Threads(q)[i]) <= Prio(Threads(q)[j]) {
      RankIsLess(q[i], q[j]);
      assert Rank(q[i]) < Rank(q[j]);
    }
  }

  /** Whatever the stamps, an add puts the thread among the others. */
  lemma RbAddMembers(s: Tree, t: Thread)
    requires Distinct(Threads(s.nodes)) && forall u :: u in Threads(s.nodes) ==> u.id != t.id
    ensures var r := Threads(RbAdd(s, t).nodes);
            Distinct(r) && forall u :: u in r <==> u == t || u in Threads(s.nodes)
  {
    var q, x := Restamped(s), Node(t, s.next);
    assert Threads(q) == Threads(s.nodes);
    var k := Place(q, x, Rank, 0);
    ThreadsSplit(q, x, k);
    AmongDistinct(Threads(q[..k]), t, Threads(q[k..]));
  }

  lemma AmongDistinct(a: seq<Thread>, t: Thread, b: seq<Thread>)
    requires Distinct(a + b) && forall u :: u in a + b ==> u.id != t.id
    ensures Distinct(a + [t] + b) && forall u :: u in a + [t] + b <==> u == t || u in a + b
  {
    var r := a + [t] + b;
    forall i, j | 0 <= i < j < |r| ensures r[i].id != r[j].id {
      assert i != |a| ==> r[i] == (a + b)[if i < |a| then i else i - 1];
      assert j != |a| ==> r[j] == (a + b)[if j < |a| then j else j - 1];
    }
  }
}
