/** Memory slabs: fixed-size blocks, with the free list threaded through the blocks.

    Blocks are numbered from 0; `None` is the null link. */
module MemSlab {
  import opened Basics
  import opened PriorityList
  import opened Counting

  datatype Waiter = Waiter(tid: nat, prio: int)

  datatype Result = Got(block: nat) | NoMem | Pended

  function WaiterPrio(w: Waiter): int { w.prio }

  /** A block in a thread's hands. */
  datatype Grant = Grant(tid: nat, block: nat)

  /** A request that got no block: -ENOMEM at once, or -EAGAIN after waiting. */
  datatype Refusal = Refusal(tid: nat, again: bool)

  /** `free` is the free list from its head, `out` the blocks in use with their holders, in the
      order they were handed out.  The rest is history: the threads that asked, the blocks
      they were given, at once or after waiting, the threads that were refused or timed out,
      and the blocks freed. */
  datatype Slab = Slab(blocks: nat, free: seq<nat>, out: seq<Grant>, used: int, waiters: seq<Waiter>,
                       asked: seq<nat>, given: seq<Grant>, refused: seq<Refusal>, freed: seq<nat>)

  function BlockIs(b: nat): Grant -> bool { (g: Grant) => g.block == b }

  function GivenTo(t: nat): Grant -> bool { (g: Grant) => g.tid == t }

  function RefusedTo(t: nat): Refusal -> bool { (r: Refusal) => r.tid == t }

  function WaiterIs(t: nat): Waiter -> bool { (w: Waiter) => w.tid == t }

  /** Every block of the buffer is free or in exactly one thread's hands; nothing else is. */
  ghost predicate PartitionAt(s: Slab, b: nat) {
    Count(s.free, Is(b)) + Count(s.out, BlockIs(b)) == One(b < s.blocks)
  }

  /** Every time block `b` was given to a thread, it was freed or is still in use. */
  ghost predicate ReturnedAt(s: Slab, b: nat) {
    Count(s.given, BlockIs(b)) == Count(s.freed, Is(b)) + Count(s.out, BlockIs(b))
  }

  /** Every request of `t` got one block, or was refused, or still waits. */
  ghost predicate AnsweredAt(s: Slab, t: nat) {
    Count(s.asked, Is(t)) ==
    Count(s.given, GivenTo(t)) + Count(s.refused, RefusedTo(t)) + Count(s.waiters, WaiterIs(t))
  }

  ghost predicate Books(s: Slab) {
    (forall b :: PartitionAt(s, b)) && (forall b :: ReturnedAt(s, b)) && (forall t :: AnsweredAt(s, t))
  }

  ghost predicate Inv(s: Slab) {
    Books(s) && s.used == |s.out| && (s.waiters != [] ==> s.free == []) && Sorted(s.waiters, WaiterPrio)
  }

  /** `k_mem_slab_alloc` up to its return or pend. */
  function AllocCall(s: Slab, tid: nat, prio: int, noWait: bool): (Slab, Result) {
    var u := s.(asked := s.asked + [tid]);
    if s.free != [] then
      var g := Grant(tid, s.free[0]);
      (u.(free := s.free[1..], out := s.out + [g], given := s.given + [g], used := s.used + 1), Got(g.block))
    else if noWait then (u.(refused := s.refused + [Refusal(tid, false)]), NoMem)
    else (u.(waiters := Insert(s.waiters, Waiter(tid, prio), WaiterPrio)), Pended)
  }

  /** `k_mem_slab_free` of block number `i` of those in use: to the first waiter, else to the
      free list. */
  function FreeCall(s: Slab, i: nat): Slab
    requires i < |s.out|
  {
    var b := s.out[i].block;
    var u := s.(freed := s.freed + [b]);
    if s.waiters != [] then
      var g := Grant(s.waiters[0].tid, b);
      u.(waiters := s.waiters[1..], out := RemoveAt(s.out, i) + [g], given := s.given + [g])
    else u.(free := [b] + s.free, out := RemoveAt(s.out, i), used := s.used - 1)
  }

  function TimeoutCall(s: Slab, i: nat): Slab
    requires i < |s.waiters|
  {
    s.(waiters := RemoveAt(s.waiters, i), refused := s.refused + [Refusal(s.waiters[i].tid, true)])
  }

  /** Blocks `n - 1` down to 0, as `create_free_list` leaves them. */
  function Down(n: nat): seq<nat> { if n == 0 then [] else [n - 1] + Down(n - 1) }

  lemma {:induction false} DownCounts(n: nat, b: nat)
    ensures Count(Down(n), Is(b)) == One(b < n)
  {
    if n > 0 {
      DownCounts(n - 1, b);
      assert Down(n)[1..] == Down(n - 1);
    }
  }

  function Init(n: nat): Slab { Slab(n, Down(n), [], 0, [], [], [], [], []) }

  lemma InitHolds(n: nat)
    ensures Inv(Init(n))
  {
    forall b ensures PartitionAt(Init(n), b) { DownCounts(n, b); }
    forall b ensures ReturnedAt(Init(n), b) {}
    forall t ensures AnsweredAt(Init(n), t) {}
  }

  lemma AllocBooks(s: Slab, tid: nat, prio: int, noWait: bool)
    requires Books(s)
    ensures Books(AllocCall(s, tid, prio, noWait).0)
  {
    var u, w := AllocCall(s, tid, prio, noWait).0, Waiter(tid, prio);
    forall b ensures PartitionAt(u, b) && ReturnedAt(u, b) {
      assert PartitionAt(s, b) && ReturnedAt(s, b);
      if s.free != [] {
        CountPush(s.out, Grant(tid, s.free[0]), BlockIs(b));
        CountPush(s.given, Grant(tid, s.free[0]), BlockIs(b));
      }
    }
    forall t ensures AnsweredAt(u, t) {
      assert AnsweredAt(s, t);
      CountPush(s.asked, tid, Is(t));
      if s.free != [] { CountPush(s.given, Grant(tid, s.free[0]), GivenTo(t)); }
      else if noWait { CountPush(s.refused, Refusal(tid, false), RefusedTo(t)); }
      else { CountInsert(s.waiters, w, WaiterPrio, WaiterIs(t)); }
    }
  }

  lemma AllocKeeps(s: Slab, tid: nat, prio: int, noWait: bool)
    requires Inv(s)
    ensures Inv(AllocCall(s, tid, prio, noWait).0)
  {
    AllocBooks(s, tid, prio, noWait);
    InsertKeepsSorted(s.waiters, Waiter(tid, prio), WaiterPrio);
  }

  lemma FreeBlocks(s: Slab, i: nat, b: nat)
    requires i < |s.out| && PartitionAt(s, b) && ReturnedAt(s, b)
    ensures PartitionAt(FreeCall(s, i), b) && ReturnedAt(FreeCall(s, i), b)
  {
    var x, rest := s.out[i].block, RemoveAt(s.out, i);
    CountRemove(s.out, i, BlockIs(b));
    CountPush(s.freed, x, Is(b));
    if s.waiters != [] {
      CountPush(rest, Grant(s.waiters[0].tid, x), BlockIs(b));
      CountPush(s.given, Grant(s.waiters[0].tid, x), BlockIs(b));
    } else {
      assert ([x] + s.free)[1..] == s.free;
    }
  }

  lemma FreeAnswers(s: Slab, i: nat, t: nat)
    requires i < |s.out| && AnsweredAt(s, t)
    ensures AnsweredAt(FreeCall(s, i), t)
  {
    if s.waiters != [] { CountPush(s.given, Grant(s.waiters[0].tid, s.out[i].block), GivenTo(t)); }
  }

  /** A free keeps the books.  With a waiter it puts the block in the hands of the first one,
      which no other waiter outranks, and of nobody else, and leaves the number in use. */
  lemma FreeKeeps(s: Slab, i: nat)
    requires Inv(s) && i < |s.out|
    ensures var u := FreeCall(s, i);
            && Inv(u) && u.used == s.used - One(s.waiters == [])
            && (s.waiters != [] ==>
                  var g := Grant(s.waiters[0].tid, s.out[i].block);
                  && u.given == s.given + [g] && g in u.out && Count(u.out, BlockIs(g.block)) == 1
                  && forall k :: 0 <= k < |s.waiters| ==> s.waiters[0].prio <= s.waiters[k].prio)
  {
    var u := FreeCall(s, i);
    forall b ensures PartitionAt(u, b) && ReturnedAt(u, b) {
      assert PartitionAt(s, b) && ReturnedAt(s, b);
      FreeBlocks(s, i, b);
    }
    forall t ensures AnsweredAt(u, t) {
      assert AnsweredAt(s, t);
      FreeAnswers(s, i, t);
    }
    if s.waiters != [] { Handed(s, u, i); }
  }

  lemma Handed(s: Slab, u: Slab, i: nat)
    requires Inv(s) && i < |s.out| && s.waiters != [] && u == FreeCall(s, i) && PartitionAt(u, s.out[i].block)
    ensures var g := Grant(s.waiters[0].tid, s.out[i].block); g in u.out && Count(u.out, BlockIs(g.block)) == 1
    ensures forall k :: 0 <= k < |s.waiters| ==> s.waiters[0].prio <= s.waiters[k].prio
  {
    var g := Grant(s.waiters[0].tid, s.out[i].block);
    assert u.out[|u.out| - 1] == g;
    CountSome(u.out, |u.out| - 1, BlockIs(g.block));
    forall k | 0 < k < |s.waiters| ensures s.waiters[0].prio <= s.waiters[k].prio {
      assert WaiterPrio(s.waiters[0]) <= WaiterPrio(s.waiters[k]);
    }
  }

  lemma TimeoutKeeps(s: Slab, i: nat)
    requires Inv(s) && i < |s.waiters|
    ensures Inv(TimeoutCall(s, i))
  {
    var u := TimeoutCall(s, i);
    RemoveKeepsSorted(s.waiters, i, WaiterPrio);
    forall b ensures PartitionAt(u, b) && ReturnedAt(u, b) { assert PartitionAt(s, b) && ReturnedAt(s, b); }
    forall t ensures AnsweredAt(u, t) {
      assert AnsweredAt(s, t);
      CountRemove(s.waiters, i, WaiterIs(t));
      CountPush(s.refused, Refusal(s.waiters[i].tid, true), RefusedTo(t));
    }
  }

  datatype Event = Alloc(tid: nat, prio: int, noWait: bool) | Free(i: nat) | WaiterTimeout(i: nat)

  /** Only a block in use is freed. */
  predicate Enabled(s: Slab, e: Event) {
    match e
    case Alloc(_, _, _) => true
    case Free(i) => i < |s.out|
    case WaiterTimeout(i) => i < |s.waiters|
  }

  function Step(s: Slab, e: Event): Slab
    requires Enabled(s, e)
  {
    match e
    case Alloc(tid, prio, noWait) => AllocCall(s, tid, prio, noWait).0
    case Free(i) => FreeCall(s, i)
    case WaiterTimeout(i) => TimeoutCall(s, i)
  }

  lemma StepKeeps(s: Slab, e: Event)
    requires Inv(s) && Enabled(s, e)
    ensures Inv(Step(s, e))
  {
    match e
    case Alloc(tid, prio, noWait) => AllocKeeps(s, tid, prio, noWait);
    case Free(i) => FreeKeeps(s, i);
    case WaiterTimeout(i) => TimeoutKeeps(s, i);
  }

  ghost predicate Follows(s: Slab, e: Event, t: Slab) { Enabled(s, e) && t == Step(s, e) }

  ghost predicate IsRun(states: seq<Slab>, events: seq<Event>) {
    && |states| == |events| + 1
    && forall i {:trigger events[i]} :: 0 <= i < |events| ==> Follows(states[i], events[i], states[i + 1])
  }

  /** Over every run: each block of the buffer is free or in exactly one thread's hands, and
      was given out as often as it came back or is in use; each request got exactly one
      block, was refused, timed out, or waits; `num_used` is exact; and nobody waits while a
      block is free. */
  lemma {:induction false} EveryRunConserves(n: nat, states: seq<Slab>, events: seq<Event>, k: nat)
    requires IsRun(states, events) && states[0] == Init(n) && k < |states|
    ensures Inv(states[k])
    decreases k
  {
    if k == 0 {
      InitHolds(n);
    } else {
      assert Follows(states[k - 1], events[k - 1], states[k]);
      EveryRunConserves(n, states, events, k - 1);
      StepKeeps(states[k - 1], events[k - 1]);
    }
  }

  // ---------- what each call does ----------

  /** An allocation succeeds exactly when a block is free, with the first free block, which is
      then in the caller's hands.  Otherwise it fails at once or waits, as asked. */
  lemma AllocOutcome(s: Slab, tid: nat, prio: int, noWait: bool)
    ensures var (u, r) := AllocCall(s, tid, prio, noWait);
            match r
            case Got(b) =>
              && s.free == [b] + u.free && u.out == s.out + [Grant(tid, b)] && u.given == s.given + [Grant(tid, b)]
              && u == s.(free := u.free, out := u.out, given := u.given, used := s.used + 1, asked := s.asked + [tid])
            case NoMem =>
              s.free == [] && noWait && u == s.(asked := s.asked + [tid], refused := s.refused + [Refusal(tid, false)])
            case Pended =>
              && s.free == [] && !noWait && u == s.(asked := s.asked + [tid], waiters := u.waiters)
              && Joins(s.waiters, u.waiters, Waiter(tid, prio), (w: Waiter) => w.prio)
  {
    InsertJoins(s.waiters, Waiter(tid, prio), WaiterPrio, (w: Waiter) => w.prio);
    assert s.free != [] ==> s.free == [s.free[0]] + s.free[1..];
  }

  /** A freed block goes to the first waiter, else to the head of the free list; a waiter that
      times out has its request refused with -EAGAIN. */
  lemma FreeOutcome(s: Slab, i: nat)
    ensures i < |s.out| ==>
              var u, b, rest := FreeCall(s, i), s.out[i].block, s.out[..i] + s.out[i + 1..];
              if s.waiters == [] then
                u == s.(free := [b] + s.free, out := rest, used := s.used - 1, freed := s.freed + [b])
              else
                var g := Grant(s.waiters[0].tid, b);
                u == s.(waiters := s.waiters[1..], out := rest + [g], given := s.given + [g], freed := s.freed + [b])
    ensures i < |s.waiters| ==>
              TimeoutCall(s, i) == s.(waiters := s.waiters[..i] + s.waiters[i + 1..],
                                      refused := s.refused + [Refusal(s.waiters[i].tid, true)])
  {
  }

  // ---------- in place ----------

  /** `list` is what following the links from `head` visits. */
  ghost predicate Linked(next: seq<Option<nat>>, head: Option<nat>, list: seq<nat>)
    decreases |list|
  {
    if list == [] then head == None
    else head == Some(list[0]) && list[0] < |next| && Linked(next, next[list[0]], list[1..])
  }

  /** Writing a link of a block that is not on the list leaves the list alone. */
  lemma {:induction false} LinkedFrame(next: seq<Option<nat>>, head: Option<nat>, list: seq<nat>, b: nat,
                                       v: Option<nat>)
    requires Linked(next, head, list) && b < |next| && b !in list
    ensures Linked(next[b := v], head, list)
    decreases |list|
  {
    if list != [] { LinkedFrame(next, next[list[0]], list[1..], b, v); }
  }

  lemma {:induction false} NotOnList(q: seq<nat>, b: nat)
    requires Count(q, Is(b)) == 0
    ensures b !in q
  {
    if q != [] { NotOnList(q[1..], b); assert q == [q[0]] + q[1..]; }
  }

  class KMemSlab {
    const link: array<Option<nat>>  // the word at the start of each block
    var freeList: Option<nat>
    var numUsed: nat
    var waitQ: seq<Waiter>
    ghost var free: seq<nat>
    ghost var out: seq<Grant>
    ghost var asked: seq<nat>
    ghost var given: seq<Grant>
    ghost var refused: seq<Refusal>
    ghost var freed: seq<nat>

    ghost function State(): Slab
      reads this
    {
      Slab(link.Length, free, out, numUsed, waitQ, asked, given, refused, freed)
    }

    ghost predicate Valid()
      reads this, link
    {
      Inv(State()) && Linked(link[..], freeList, free)
    }

    /** `k_mem_slab_init`. */
    constructor (blocks: nat)
      ensures Valid() && State() == Init(blocks) && fresh(link)
    {
      link := new Option<nat>[blocks](_ => None);
      freeList, numUsed, waitQ := None, 0, [];
      free, out, asked, given, refused, freed := [], [], [], [], [], [];
      new;
      CreateFreeList();
      assert State() == Init(blocks);
      InitHolds(blocks);
    }

    /** `create_free_list`: links every block, so that the last one is the head. */
    method CreateFreeList()
      modifies `freeList, `free, link
      ensures free == Down(link.Length) && Linked(link[..], freeList, free)
    {
      freeList, free := None, [];
      var j := 0;
      while j < link.Length
        invariant 0 <= j <= link.Length && free == Down(j) && Linked(link[..], freeList, free)
      {
        DownCounts(j, j);
        NotOnList(free, j);
        LinkedFrame(link[..], freeList, free, j, freeList);
        ghost var before := link[..];
        link[j] := freeList;
        assert link[..] == before[j := freeList];
        freeList, free := Some(j), [j] + free;
        assert free[1..] == Down(j);
        j := j + 1;
      }
    }

    method Alloc(tid: nat, prio: int, noWait: bool) returns (r: Result)
      requires Valid()
      modifies this
      ensures Valid() && (State(), r) == AllocCall(old(State()), tid, prio, noWait)
    {
      AllocKeeps(State(), tid, prio, noWait);
      asked := asked + [tid];
      if freeList.Some? {
        var b := freeList.value;
        freeList := link[b];
        numUsed := numUsed + 1;
        free, out, given := free[1..], out + [Grant(tid, b)], given + [Grant(tid, b)];
        r := Got(b);
      } else if noWait {
        refused := refused + [Refusal(tid, false)];
        r := NoMem;
      } else {
        waitQ := PriorityList.Add(waitQ, Waiter(tid, prio), WaiterPrio);
        r := Pended;
      }
    }

    /** Frees a block in use; `i` is where `out` records it. */
    method Free(b: nat, ghost i: nat)
      requires Valid() && i < |out| && out[i].block == b
      modifies this, link
      ensures Valid() && State() == FreeCall(old(State()), i)
    {
      FreeKeeps(State(), i);
      assert PartitionAt(State(), b);
      freed := freed + [b];
      if |waitQ| > 0 {
        given, out := given + [Grant(waitQ[0].tid, b)], RemoveAt(out, i) + [Grant(waitQ[0].tid, b)];
        waitQ := waitQ[1..];
      } else {
        CountSome(out, i, BlockIs(b));
        NotOnList(free, b);
        LinkedFrame(link[..], freeList, free, b, freeList);
        link[b] := freeList;
        assert link[..] == old(link[..])[b := freeList];
        freeList := Some(b);
        numUsed := numUsed - 1;
        free, out := [b] + free, RemoveAt(out, i);
      }
    }

    /** A waiter's timeout. */
    method WaiterTimesOut(i: nat)
      requires Valid() && i < |waitQ|
      modifies this
      ensures Valid() && State() == TimeoutCall(old(State()), i)
    {
      TimeoutKeeps(State(), i);
      refused := refused + [Refusal(waitQ[i].tid, true)];
      waitQ := RemoveAt(waitQ, i);
    }
  }
}
