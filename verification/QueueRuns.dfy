/** The three thread queues driven in lockstep, and the two that work in place. */
module QueueRuns {
  import opened Basics
  import opened PriorityList
  import opened ReadyQueues
  import opened TreeQueue

  datatype Event =
    | Add(t: Thread)
    | Remove(t: Thread)
    | Requeue(t: Thread, prio: int)  // `_thread_priority_set`; with the old priority, `k_yield`

  /** The sorted list, the multiqueue and the tree after the same calls. */
  datatype Queues = Queues(list: seq<Thread>, mq: Mq, tree: Tree)

  /** A thread is added once and removed while queued, and priorities fit the 32 lists. */
  ghost predicate Enabled(s: Queues, base: int, e: Event) {
    match e
    case Add(t) => (forall u :: u in s.list ==> u.id != t.id) && 0 <= t.prio - base < LISTS
    case Remove(t) => t in s.list && 0 <= t.prio - base < LISTS
    case Requeue(t, prio) => t in s.list && 0 <= t.prio - base < LISTS && 0 <= prio - base < LISTS
  }

  function AddAll(s: Queues, base: int, t: Thread): Queues
    requires |s.mq.queues| == LISTS && 0 <= t.prio - base < LISTS
  {
    Queues(Insert(s.list, t, Prio), MqAdd(s.mq, base, t), RbAdd(s.tree, t))
  }

  function RemoveAll(s: Queues, base: int, t: Thread): Queues
    requires |s.mq.queues| == LISTS && 0 <= t.prio - base < LISTS
  {
    Queues(Without(s.list, t.id), MqRemove(s.mq, base, t), RbRemove(s.tree, t.id))
  }

  ghost function Step(s: Queues, base: int, e: Event): Queues
    requires |s.mq.queues| == LISTS && Enabled(s, base, e)
  {
    match e
    case Add(t) => AddAll(s, base, t)
    case Remove(t) => RemoveAll(s, base, t)
    case Requeue(t, prio) => AddAll(RemoveAll(s, base, t), base, Thread(t.id, prio))
  }

  /** The multiqueue holds the list's threads in the list's order. */
  ghost predicate MqAgrees(s: Queues, base: int) {
    MqInv(s.mq, base) && Flat(s.mq.queues) == s.list && Distinct(s.list) && Sorted(s.list, Prio)
  }

  /** So does the tree, whose stamps are all older than the next. */
  ghost predicate TreeAgrees(s: Queues) {
    Ordered(s.tree.nodes) && Unwrapped(s.tree) && Threads(s.tree.nodes) == s.list
  }

  lemma AddAgrees(s: Queues, base: int, t: Thread)
    requires MqAgrees(s, base) && Enabled(s, base, Add(t))
    ensures MqAgrees(AddAll(s, base, t), base)
    ensures TreeAgrees(s) && s.tree.next + 1 < KEYS ==> TreeAgrees(AddAll(s, base, t))
  {
    MqAddKeeps(s.mq, base, t);
    InsertKeepsSorted(s.list, t, Prio);
    if TreeAgrees(s) && s.tree.next + 1 < KEYS {
      forall i | 0 <= i < |s.tree.nodes| ensures s.tree.nodes[i].thread.id != t.id {
        assert s.tree.nodes[i].thread == s.list[i];
      }
      RbAddKeeps(s.tree, t);
    }
  }

  lemma RemoveAgrees(s: Queues, base: int, t: Thread)
    requires MqAgrees(s, base) && Enabled(s, base, Remove(t))
    ensures MqAgrees(RemoveAll(s, base, t), base)
    ensures forall u :: u in RemoveAll(s, base, t).list ==> u.id != t.id
    ensures TreeAgrees(s) ==> TreeAgrees(RemoveAll(s, base, t)) && RemoveAll(s, base, t).tree.next <= s.tree.next
  {
    MqRemoveKeeps(s.mq, base, t);
    WithoutSorted(s.list, t.id);
    WithoutDistinct(s.list, t.id);
    WithoutMembers(s.list, t.id);
    if TreeAgrees(s) { RbRemoveKeeps(s.tree, t.id); }
  }

  /** An addition does not bring the stamp counter round. */
  predicate NoWrap(s: Queues, e: Event) { e.Remove? || s.tree.next + 1 < KEYS }

  lemma StepAgrees(s: Queues, base: int, e: Event)
    requires MqAgrees(s, base) && Enabled(s, base, e)
    ensures MqAgrees(Step(s, base, e), base)
    ensures TreeAgrees(s) && NoWrap(s, e) ==> TreeAgrees(Step(s, base, e))
  {
    match e
    case Add(t) => AddAgrees(s, base, t);
    case Remove(t) => RemoveAgrees(s, base, t);
    case Requeue(t, prio) =>
      RemoveAgrees(s, base, t);
      AddAgrees(RemoveAll(s, base, t), base, Thread(t.id, prio));
  }

  ghost predicate Follows(s: Queues, base: int, e: Event, t: Queues) {
    |s.mq.queues| == LISTS && Enabled(s, base, e) && t == Step(s, base, e)
  }

  lemma FollowsAgrees(s: Queues, base: int, e: Event, t: Queues)
    requires Follows(s, base, e, t) && MqAgrees(s, base)
    ensures MqAgrees(t, base) && (TreeAgrees(s) && NoWrap(s, e) ==> TreeAgrees(t))
  {
    StepAgrees(s, base, e);
  }

  ghost predicate IsRun(states: seq<Queues>, base: int, events: seq<Event>) {
    && |states| == |events| + 1
    && forall i {:trigger events[i]} :: 0 <= i < |events| ==> Follows(states[i], base, events[i], states[i + 1])
  }

  lemma Taken(states: seq<Queues>, base: int, events: seq<Event>, i: nat, s: Queues, e: Event, t: Queues)
    requires IsRun(states, base, events) && i < |events| && s == states[i] && e == events[i] && t == states[i + 1]
    ensures Follows(s, base, e, t)
  {
  }

  function Empty(): Queues { Queues([], Mq(seq(LISTS, _ => []), 0), Tree([], 0)) }

  lemma EmptyLists(qs: seq<seq<Thread>>, base: int)
    requires |qs| == LISTS && forall i :: 0 <= i < |qs| ==> qs[i] == []
    ensures Flat(qs) == [] && MqInv(Mq(qs, 0), base)
  {
    if Flat(qs) != [] { FlatMembers(qs, Flat(qs)[0]); }
    forall i | 0 <= i < LISTS ensures !Bit(0, i) { ZeroBits(i); }
  }

  /** Runs may start at the empty queues. */
  lemma EmptyAgrees(base: int)
    ensures MqAgrees(Empty(), base) && TreeAgrees(Empty()) && TreeHolds(Empty())
  {
    EmptyLists(Empty().mq.queues, base);
  }

  /** What holds at first and is kept by every step holds throughout. */
  lemma {:induction false} Throughout(states: seq<Queues>, inv: Queues -> bool, n: nat)
    requires n < |states| && inv(states[0]) && forall i :: 0 < i < |states| && inv(states[i - 1]) ==> inv(states[i])
    ensures inv(states[n])
  {
    if n > 0 { Throughout(states, inv, n - 1); }
  }

  lemma AgreesAt(states: seq<Queues>, base: int, events: seq<Event>, i: nat, s: Queues, t: Queues)
    requires IsRun(states, base, events) && i < |events| && s == states[i] && t == states[i + 1]
    ensures MqAgrees(s, base) ==> MqAgrees(t, base)
  {
    var e := events[i];
    Taken(states, base, events, i, s, e, t);
    if MqAgrees(s, base) { FollowsAgrees(s, base, e, t); }
  }

  /** For every sequence of adds, removes and priority changes, concatenating the 32 lists
      gives the sorted list, the mask marks the non-empty ones, and both pick the same
      thread. */
  lemma MultiqueueIsList(states: seq<Queues>, base: int, events: seq<Event>, n: nat)
    requires IsRun(states, base, events) && MqAgrees(states[0], base) && n < |states|
    ensures MqAgrees(states[n], base) && MqBest(states[n].mq) == ListBest(states[n].list)
  {
    forall i | 0 < i < |states| ensures MqAgrees(states[i - 1], base) ==> MqAgrees(states[i], base) {
      AgreesAt(states, base, events, i - 1, states[i - 1], states[i]);
    }
    Throughout(states, s => MqAgrees(s, base), n);
    MqBestIsHead(states[n].mq, base);
  }

  ghost predicate AllAgree(s: Queues, base: int) { MqAgrees(s, base) && TreeAgrees(s) }

  /** The counter does not come round in the run. */
  ghost predicate Unbroken(states: seq<Queues>, events: seq<Event>) {
    |states| == |events| + 1 && forall i {:trigger events[i]} :: 0 <= i < |events| ==> NoWrap(states[i], events[i])
  }

  lemma AllAgreeAt(states: seq<Queues>, base: int, events: seq<Event>, i: nat, s: Queues, t: Queues)
    requires IsRun(states, base, events) && Unbroken(states, events)
         && i < |events| && s == states[i] && t == states[i + 1]
    ensures AllAgree(s, base) ==> AllAgree(t, base)
  {
    var e := events[i];
    Taken(states, base, events, i, s, e, t);
    assert NoWrap(s, e);
    if AllAgree(s, base) { FollowsAgrees(s, base, e, t); }
  }

  /** So does the tree while its counter has not come round since a state in which they
      agreed, such as any in which the queue was empty. */
  lemma TreeIsList(states: seq<Queues>, base: int, events: seq<Event>, n: nat)
    requires IsRun(states, base, events) && AllAgree(states[0], base) && Unbroken(states, events) && n < |states|
    ensures AllAgree(states[n], base)
  {
    forall i | 0 < i < |states| ensures AllAgree(states[i - 1], base) ==> AllAgree(states[i], base) {
      AllAgreeAt(states, base, events, i - 1, states[i - 1], states[i]);
    }
    Throughout(states, s => AllAgree(s, base), n);
  }

  /** How many threads were added since the queue was last empty. */
  function Since(k: nat, s: Queues, e: Event): nat {
    match e
    case Add(_) => k + 1
    case Remove(t) => if s.list == [t] then 0 else k
    case Requeue(t, _) => if s.list == [t] then 1 else k + 1
  }

  function AddsSince(states: seq<Queues>, events: seq<Event>, n: nat): nat
    requires n <= |events| < |states|
  {
    if n == 0 then states[0].tree.next else Since(AddsSince(states, events, n - 1), states[n - 1], events[n - 1])
  }

  lemma RemovedCounter(s: Queues, base: int, t: Thread)
    requires AllAgree(s, base) && Enabled(s, base, Remove(t))
    ensures RemoveAll(s, base, t).tree.next == if s.list == [t] then 0 else s.tree.next
  {
    UnlinkThreads(s.tree.nodes, t.id);
    var k :| 0 <= k < |s.list| && s.list[k] == t;
    if |s.list| > 1 {
      WithoutMembers(s.list, t.id);
      var j := if k == 0 then 1 else 0;
      assert s.list[j].id != t.id && s.list[j] in s.list;
    }
  }

  /** The counter counts these additions. */
  lemma FollowsCounter(s: Queues, base: int, e: Event, t: Queues)
    requires Follows(s, base, e, t) && AllAgree(s, base) && NoWrap(s, e)
    ensures AllAgree(t, base) && t.tree.next == Since(s.tree.next, s, e)
  {
    FollowsAgrees(s, base, e, t);
    match e
    case Add(_) =>
    case Remove(x) => RemovedCounter(s, base, x);
    case Requeue(x, _) => RemovedCounter(s, base, x);
  }

  /** Whenever one of the first `n` additions was made, fewer than 2^32 - 1 threads had been
      added since the queue was last empty. */
  ghost predicate FewTo(states: seq<Queues>, events: seq<Event>, n: nat)
    requires n <= |events| < |states|
  {
    forall i {:trigger events[i]} :: 0 <= i < n ==> events[i].Remove? || AddsSince(states, events, i) + 1 < KEYS
  }

  ghost predicate Counted(s: Queues, base: int, k: nat) { AllAgree(s, base) && s.tree.next == k }

  lemma FewAt(states: seq<Queues>, base: int, events: seq<Event>, i: nat, s: Queues, e: Event, t: Queues, k: nat)
    requires IsRun(states, base, events) && i < |events| && s == states[i] && e == events[i] && t == states[i + 1]
    requires FewTo(states, events, i + 1) && k == AddsSince(states, events, i)
    ensures Follows(s, base, e, t) && (e.Remove? || k + 1 < KEYS) && AddsSince(states, events, i + 1) == Since(k, s, e)
    ensures FewTo(states, events, i)
  {
    Taken(states, base, events, i, s, e, t);
  }

  lemma FewFollows(s: Queues, base: int, e: Event, t: Queues, k: nat)
    requires Follows(s, base, e, t) && Counted(s, base, k) && (e.Remove? || k + 1 < KEYS)
    ensures Counted(t, base, Since(k, s, e))
  {
    FollowsCounter(s, base, e, t);
  }

  ghost predicate CountedAt(states: seq<Queues>, base: int, events: seq<Event>, i: nat) {
    i <= |events| < |states| && Counted(states[i], base, AddsSince(states, events, i))
  }

  lemma CountedStep(states: seq<Queues>, base: int, events: seq<Event>, n: nat, i: nat)
    requires IsRun(states, base, events) && i < n <= |events| && FewTo(states, events, n)
    ensures CountedAt(states, base, events, i) ==> CountedAt(states, base, events, i + 1)
  {
    if CountedAt(states, base, events, i) {
      var s, e, t, k := states[i], events[i], states[i + 1], AddsSince(states, events, i);
      assert FewTo(states, events, i + 1);
      FewAt(states, base, events, i, s, e, t, k);
      FewFollows(s, base, e, t, k);
    }
  }

  lemma {:induction false} UpTo(p: nat -> bool, n: nat)
    requires p(0) && forall i :: 0 < i <= n ==> p(i - 1) ==> p(i)
    ensures p(n)
  {
    if n > 0 { UpTo(p, n - 1); }
  }

  /** Over every run with fewer than 2^32 - 1 additions since the queue was last empty, the
      tree holds the sorted list, and its counter counts these additions. */
  lemma TreeIsListWhileFew(states: seq<Queues>, base: int, events: seq<Event>, n: nat)
    requires IsRun(states, base, events) && AllAgree(states[0], base) && n <= |events| && FewTo(states, events, n)
    ensures Counted(states[n], base, AddsSince(states, events, n))
  {
    var p := (i: nat) => CountedAt(states, base, events, i);
    forall i | 0 < i <= n ensures p(i - 1) ==> p(i) { CountedStep(states, base, events, n, i - 1); }
    UpTo(p, n);
    assert CountedAt(states, base, events, n);
  }

  /** The tree is strictly ordered, hence in priority order, and holds the list's threads. */
  ghost predicate TreeHolds(s: Queues) {
    && Ordered(s.tree.nodes) && Stamped(s.tree) && Sorted(Threads(s.tree.nodes), Prio)
    && Distinct(Threads(s.tree.nodes)) && forall t :: t in Threads(s.tree.nodes) <==> t in s.list
  }

  lemma AddHolds(s: Queues, base: int, t: Thread)
    requires |s.mq.queues| == LISTS && TreeHolds(s) && Enabled(s, base, Add(t)) && |s.tree.nodes| + 1 < KEYS
    ensures TreeHolds(AddAll(s, base, t))
  {
    RbAddStamped(s.tree, t);
    RbAddMembers(s.tree, t);
    InsertMembers(s.list, t, Prio);
    OrderedByPrio(RbAdd(s.tree, t).nodes);
  }

  lemma RemoveHolds(s: Queues, base: int, t: Thread)
    requires |s.mq.queues| == LISTS && TreeHolds(s) && Distinct(s.list) && Enabled(s, base, Remove(t))
    ensures TreeHolds(RemoveAll(s, base, t)) && |RemoveAll(s, base, t).tree.nodes| <= |s.tree.nodes|
    ensures forall u :: u in RemoveAll(s, base, t).list ==> u.id != t.id
  {
    RbRemoveStamped(s.tree, t.id);
    UnlinkThreads(s.tree.nodes, t.id);
    WithoutMembers(Threads(s.tree.nodes), t.id);
    WithoutDistinct(Threads(s.tree.nodes), t.id);
    WithoutMembers(s.list, t.id);
    OrderedByPrio(RbRemove(s.tree, t.id).nodes);
  }

  lemma FollowsHolds(s: Queues, base: int, e: Event, t: Queues)
    requires Follows(s, base, e, t) && MqAgrees(s, base) && TreeHolds(s) && |s.tree.nodes| + 1 < KEYS
    ensures TreeHolds(t)
  {
    match e
    case Add(x) => AddHolds(s, base, x);
    case Remove(x) => RemoveHolds(s, base, x);
    case Requeue(x, prio) =>
      RemoveAgrees(s, base, x);
      RemoveHolds(s, base, x);
      AddHolds(RemoveAll(s, base, x), base, Thread(x.id, prio));
  }

  /** Two lists of the same threads in priority order start at the same priority. */
  lemma SameBestPrio(a: seq<Thread>, b: seq<Thread>)
    requires Sorted(a, Prio) && Sorted(b, Prio) && forall t :: t in a <==> t in b
    ensures (a == [] <==> b == []) && (a != [] && b != [] ==> a[0].prio == b[0].prio)
  {
    if a != [] {
      assert a[0] in b;
      var j :| 0 <= j < |b| && b[j] == a[0];
      assert j > 0 ==> Prio(b[0]) <= Prio(b[j]);
    }
    if b != [] {
      assert b[0] in a;
      var i :| 0 <= i < |a| && a[i] == b[0];
      assert i > 0 ==> Prio(a[0]) <= Prio(a[i]);
    }
  }

  ghost predicate FewThreads(states: seq<Queues>) {
    forall i :: 0 <= i < |states| ==> |states[i].tree.nodes| + 1 < KEYS
  }

  ghost predicate Both(s: Queues, base: int) { MqAgrees(s, base) && TreeHolds(s) }

  /** A call with few threads queued. */
  ghost predicate SmallStep(s: Queues, base: int, e: Event, t: Queues) {
    Follows(s, base, e, t) && |s.tree.nodes| + 1 < KEYS
  }

  lemma RunSmall(states: seq<Queues>, base: int, events: seq<Event>, i: nat, s: Queues, e: Event, t: Queues)
    requires IsRun(states, base, events) && FewThreads(states)
    requires i < |events| && s == states[i] && e == events[i] && t == states[i + 1]
    ensures SmallStep(s, base, e, t)
  {
    Taken(states, base, events, i, s, e, t);
  }

  lemma SmallStepBoth(s: Queues, base: int, e: Event, t: Queues)
    requires SmallStep(s, base, e, t) && Both(s, base)
    ensures Both(t, base)
  {
    FollowsAgrees(s, base, e, t);
    FollowsHolds(s, base, e, t);
  }

  lemma StaysAt(states: seq<Queues>, base: int, events: seq<Event>, i: nat, s: Queues, t: Queues)
    requires IsRun(states, base, events) && FewThreads(states) && i < |events| && s == states[i] && t == states[i + 1]
    ensures Both(s, base) ==> Both(t, base)
  {
    var e := events[i];
    RunSmall(states, base, events, i, s, e, t);
    if Both(s, base) { SmallStepBoth(s, base, e, t); }
  }

  lemma TreeStays(states: seq<Queues>, base: int, events: seq<Event>, n: nat)
    requires IsRun(states, base, events) && FewThreads(states) && Both(states[0], base) && n < |states|
    ensures Both(states[n], base)
  {
    forall i | 0 < i < |states| ensures Both(states[i - 1], base) ==> Both(states[i], base) {
      StaysAt(states, base, events, i - 1, states[i - 1], states[i]);
    }
    Throughout(states, s => Both(s, base), n);
  }

  /** Over every run, however often the counter comes round, with fewer than 2^32 - 1
      threads: the tree stays strictly ordered by priority and key, holds exactly the
      list's threads, and picks one of the list's best priority. */
  lemma TreeStaysOrdered(states: seq<Queues>, base: int, events: seq<Event>, n: nat)
    requires IsRun(states, base, events) && FewThreads(states) && Both(states[0], base) && n < |states|
    ensures var s := states[n];
            && TreeHolds(s) && (s.tree.nodes == [] <==> s.list == [])
            && (s.tree.nodes != [] && s.list != [] ==> s.tree.nodes[0].thread.prio == s.list[0].prio)
  {
    TreeStays(states, base, events, n);
    SameBestPrio(Threads(states[n].tree.nodes), states[n].list);
  }

  /** `struct _priq_mq`. */
  class PriqMq {
    const base: int
    const queues: array<seq<Thread>>
    var bitmask: nat

    ghost function Value(): Mq
      reads this, queues
    {
      Mq(queues[..], bitmask)
    }

    ghost predicate Valid()
      reads this, queues
    {
      MqInv(Value(), base)
    }

    constructor (base: int)
      ensures Valid() && Flat(queues[..]) == [] && bitmask == 0 && this.base == base && fresh(queues)
    {
      this.base := base;
      queues := new seq<Thread>[LISTS](_ => []);
      bitmask := 0;
      new;
      EmptyLists(queues[..], base);
    }

    /** `_priq_mq_add`. */
    method Add(t: Thread)
      requires Valid() && 0 <= t.prio - base < LISTS && forall u :: u in Flat(queues[..]) ==> u.id != t.id
      modifies this`bitmask, queues
      ensures Valid() && Value() == MqAdd(old(Value()), base, t)
      ensures Flat(queues[..]) == Insert(old(Flat(queues[..])), t, Prio)
    {
      MqAddKeeps(Value(), base, t);
      var i := t.prio - base;
      queues[i] := queues[i] + [t];
      bitmask := OrBit(bitmask, i);
      assert queues[..] == old(queues[..])[i := old(queues[..])[i] + [t]];
    }

    /** `_priq_mq_remove`. */
    method Remove(t: Thread)
      requires Valid() && t in Flat(queues[..])
      modifies this`bitmask, queues
      ensures Valid() && 0 <= t.prio - base < LISTS && Value() == MqRemove(old(Value()), base, t)
      ensures Flat(queues[..]) == Without(old(Flat(queues[..])), t.id)
    {
      MqRemoveKeeps(Value(), base, t);
      var i := t.prio - base;
      queues[i] := Without(queues[i], t.id);
      ghost var b := queues[..];
      assert b == old(queues[..])[i := Without(old(queues[..])[i], t.id)];
      if queues[i] == [] {
        bitmask := AndNotBit(bitmask, i);
      }
      assert queues[..] == b;
    }

    /** `_priq_mq_best`: the scan for the lowest set bit finds the sorted list's head. */
    method Best() returns (r: Option<Thread>)
      requires Valid()
      ensures r == ListBest(Flat(queues[..]))
    {
      MqBestIsHead(Value(), base);
      if bitmask == 0 {
        return None;
      }
      CtzFinds(bitmask);
      var i := 0;
      while !Bit(bitmask, i)
        invariant 0 <= i < LISTS && Ctz(bitmask, 0) == Ctz(bitmask, i)
        decreases LISTS - i
      {
        i := i + 1;
      }
      r := Some(queues[i][0]);
    }
  }

  /** `struct _priq_rb`. */
  class PriqRb {
    var nodes: seq<Node>
    var nextOrderKey: nat

    ghost function Value(): Tree
      reads this
    {
      Tree(nodes, nextOrderKey)
    }

    /** `_priq_rb_add`, with its renumbering loop over the tree: the order survives, and the
        sorted list's too while the counter has not come round. */
    method Add(t: Thread)
      requires Ordered(nodes) && Stamped(Value()) && |nodes| + 1 < KEYS
      modifies this
      ensures Value() == RbAdd(old(Value()), t) && Ordered(nodes) && Stamped(Value())
      ensures old(Unwrapped(Value())) && (forall i :: 0 <= i < |old(nodes)| ==> old(nodes)[i].thread != t) ==>
                Threads(nodes) == Insert(old(Threads(nodes)), t, Prio)
    {
      RbAddFacts(Value(), t);
      var x := Node(t, nextOrderKey);
      nextOrderKey := if nextOrderKey + 1 == KEYS then 0 else nextOrderKey + 1;
      if nextOrderKey == 0 {
        RenumberAll();
      }
      nodes := PriorityList.Add(nodes, x, Rank);
    }

    method RenumberAll()
      requires nextOrderKey == 0
      modifies this
      ensures nodes == Renumber(old(nodes)) && nextOrderKey == |nodes|
    {
      var i := 0;
      while i < |nodes|
        invariant 0 <= i <= |nodes| == |old(nodes)| && nextOrderKey == i
        invariant forall j :: 0 <= j < i ==> nodes[j] == Node(old(nodes)[j].thread, j)
        invariant forall j :: i <= j < |nodes| ==> nodes[j] == old(nodes)[j]
      {
        nodes := nodes[i := Node(nodes[i].thread, nextOrderKey)];
        nextOrderKey := nextOrderKey + 1;
        i := i + 1;
      }
    }

    /** `_priq_rb_remove`: the others keep their order and their keys. */
    method Remove(id: nat)
      requires Ordered(nodes) && Stamped(Value())
      modifies this
      ensures Value() == RbRemove(old(Value()), id) && Ordered(nodes) && Stamped(Value())
      ensures Threads(nodes) == Without(old(Threads(nodes)), id) && forall n :: n in nodes ==> n in old(nodes)
      ensures old(Unwrapped(Value())) ==> Unwrapped(Value())
    {
      RbRemoveStamped(Value(), id);
      UnlinkThreads(nodes, id);
      if Unwrapped(Value()) { RbRemoveKeeps(Value(), id); }
      nodes := Unlink(nodes, id);
      if |nodes| == 0 {
        nextOrderKey := 0;
      }
    }
  }
}
