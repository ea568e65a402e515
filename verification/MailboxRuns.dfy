/** Safety of a mailbox over every run. */
module MailboxRuns {
  import opened Basics
  import opened PriorityList
  import opened Counting
  import opened MailboxSpec

  /** The sender named this receiver or anybody, and the receiver this sender or anybody. */
  ghost predicate Agree(t: Tx, r: Rx) {
    (t.target.Some? ==> t.target.value == r.tid) && (r.source.Some? ==> r.source.value == t.source)
  }

  /** No queued sender could be received by any queued receiver. */
  ghost predicate Complete(s: Mbox) {
    forall i, j :: 0 <= i < |s.tx| && 0 <= j < |s.rx| ==> !Agree(s.tx[i], s.rx[j])
  }

  function TxIs(x: nat): Tx -> bool { (t: Tx) => t.mid == x }

  function HeldIs(x: nat): Held -> bool { (h: Held) => h.syncing && h.tx.mid == x }

  function FailedIs(x: nat): FailedSend -> bool { (f: FailedSend) => f.mid == x }

  function DoneIs(x: nat): Done -> bool { (d: Done) => d.tx.mid == x }

  /** Send number `x` is, exactly once, waiting, matched and not yet disposed of,
      completed, or failed; later numbers are unused. */
  ghost predicate OnceFor(s: Mbox, x: nat) {
    Count(s.tx, TxIs(x)) + Count(s.held, HeldIs(x)) + Count(s.done, DoneIs(x)) + Count(s.failed, FailedIs(x))
    == One(x < s.next)
  }

  predicate Uses(x: Sender, d: nat) { x.Async? && x.desc == d }

  function TxUses(d: nat): Tx -> bool { (t: Tx) => Uses(t.sender, d) }

  function HeldUses(d: nat): Held -> bool { (h: Held) => h.syncing && Uses(h.tx.sender, d) }

  /** Asynchronous descriptor `d` is free or in flight as often as it is in the pool. */
  ghost predicate PoolFor(s: Mbox, d: nat, pool: multiset<nat>) {
    Count(s.asyncFree, Is(d)) + Count(s.tx, TxUses(d)) + Count(s.held, HeldUses(d)) == pool[d]
  }

  predicate WantsSem(d: Done) { d.tx.sender.Async? && d.tx.sender.sem }

  /** Sender and receiver agree; each sees who the other is, and the other's info. */
  ghost predicate Paired(h: Held) {
    && Agree(h.tx, h.rx) && h.from == h.tx.source && h.to == h.rx.tid
    && h.info == h.tx.info && h.back == h.rx.info
  }

  /** A message is received at the smaller of the sent and requested sizes, and keeps its
      block until it is disposed of or handed over. */
  ghost predicate HeldOk(h: Held) {
    && Paired(h)
    && (h.syncing ==> h.size == Min(h.tx.size, h.rx.size) && h.attached == h.tx.block && !h.given && !h.discarded)
    && (!h.syncing ==> !h.attached) && (h.discarded ==> h.size == 0)
  }

  /** A sender learns who received its message, that receiver's info, and the size received,
      which is 0 exactly for a discarded message or an empty one; a block was freed or handed
      over, not both. */
  ghost predicate DoneOk(d: Done) {
    && Agree(d.tx, d.rx) && d.to == d.rx.tid && d.info == d.rx.info
    && d.size == (if d.discarded then 0 else Min(d.tx.size, d.rx.size))
    && (d.tx.block <==> d.freed || d.given) && !(d.freed && d.given)
  }

  ghost predicate Books(s: Mbox, pool: multiset<nat>) {
    && (forall x :: OnceFor(s, x)) && (forall d :: PoolFor(s, d, pool))
    && s.semsGiven == Count(s.done, WantsSem)
    && (forall i :: 0 <= i < |s.done| ==> DoneOk(s.done[i]))
  }

  ghost predicate Inv(s: Mbox, pool: multiset<nat>) {
    && Complete(s) && Sorted(s.tx, TxPrio) && Sorted(s.rx, RxPrio)
    && Books(s, pool) && forall i :: 0 <= i < |s.held| ==> HeldOk(s.held[i])
  }

  // ---------- disposal ----------

  /** What disposal needs of the descriptor: it may just have been emptied or have handed
      its block over. */
  ghost predicate Disposable(h: Held) {
    && Paired(h)
    && (if h.syncing then
          && h.size == (if h.discarded then 0 else Min(h.tx.size, h.rx.size))
          && (h.tx.block <==> h.attached || h.given) && !(h.attached && h.given)
        else !h.attached)
    && (h.discarded ==> h.size == 0)
  }

  lemma DisposeBooks(s: Mbox, i: nat, pool: multiset<nat>)
    requires Books(s, pool) && i < |s.held| && s.held[i].syncing && Disposable(s.held[i])
    ensures Books(Dispose(s, i), pool)
  {
    var h, t := s.held[i], Dispose(s, i);
    var d := Completion(h);
    var h' := h.(syncing := false, attached := false);
    forall x ensures OnceFor(t, x) {
      assert OnceFor(s, x);
      CountUpdate(s.held, i, h', HeldIs(x));
      CountPush(s.done, d, DoneIs(x));
    }
    forall x ensures PoolFor(t, x, pool) {
      assert PoolFor(s, x, pool);
      CountUpdate(s.held, i, h', HeldUses(x));
      if h.tx.sender.Async? { CountPush(s.asyncFree, h.tx.sender.desc, Is(x)); }
    }
    CountPush(s.done, d, WantsSem);
  }

  /** The message of descriptor `i` is complete.  If it was not before, its sender has just
      learnt who received it, that receiver's info, and the size received, 0 if it was
      discarded; its block was handed over or freed, and its asynchronous descriptor and
      semaphore given back. */
  ghost predicate Completes(s: Mbox, t: Mbox, i: nat, discarded: bool, given: bool)
    requires i < |s.held|
  {
    var h := s.held[i];
    && |t.held| == |s.held| && t.held == s.held[i := t.held[i]] && !t.held[i].syncing
    && t == s.(held := t.held, done := t.done, asyncFree := t.asyncFree, semsGiven := t.semsGiven)
    && t.held[i] == h.(syncing := false, attached := false, checked := t.held[i].checked, size := t.held[i].size,
                       given := t.held[i].given, discarded := t.held[i].discarded)
    && (h.checked ==> t.held[i].checked) && t.held[i].size == (if discarded then 0 else h.size)
    && (!h.syncing ==> t.done == s.done && t.asyncFree == s.asyncFree && t.semsGiven == s.semsGiven)
    && (h.syncing ==>
          && t.done == s.done + [Done(h.tx, h.rx, h.rx.tid, if discarded then 0 else Min(h.tx.size, h.rx.size),
                                      h.rx.info, h.tx.block && !given, given, discarded)]
          && t.asyncFree == s.asyncFree + (if h.tx.sender.Async? then [h.tx.sender.desc] else [])
          && t.semsGiven == s.semsGiven + One(h.tx.sender.Async? && h.tx.sender.sem))
  }

  /** The message of a descriptor still syncing is completed, once; disposing again does
      nothing. */
  lemma DisposeKeeps(s: Mbox, i: nat, pool: multiset<nat>)
    requires Complete(s) && Sorted(s.tx, TxPrio) && Sorted(s.rx, RxPrio) && Books(s, pool) && i < |s.held|
    requires Disposable(s.held[i]) && forall j :: 0 <= j < |s.held| && j != i ==> HeldOk(s.held[j])
    ensures Inv(Dispose(s, i), pool) && Dispose(Dispose(s, i), i) == Dispose(s, i)
    ensures Completes(s, Dispose(s, i), i, s.held[i].discarded, s.held[i].given)
  {
    if s.held[i].syncing { DisposeBooks(s, i, pool); }
  }

  /** Rewriting a descriptor without touching who sent it keeps the books. */
  lemma RewriteBooks(s: Mbox, i: nat, h: Held, pool: multiset<nat>)
    requires Books(s, pool) && i < |s.held|
    requires h.syncing == s.held[i].syncing && h.tx == s.held[i].tx
    ensures Books(s.(held := s.held[i := h]), pool)
  {
    var t := s.(held := s.held[i := h]);
    forall x ensures OnceFor(t, x) {
      assert OnceFor(s, x);
      CountUpdate(s.held, i, h, HeldIs(x));
    }
    forall x ensures PoolFor(t, x, pool) {
      assert PoolFor(s, x, pool);
      CountUpdate(s.held, i, h, HeldUses(x));
    }
  }

  lemma DataGetKeeps(s: Mbox, i: nat, discard: bool, pool: multiset<nat>)
    requires Inv(s, pool) && i < |s.held|
    ensures Inv(DataGet(s, i, discard), pool) && Completes(s, DataGet(s, i, discard), i, discard, false)
  {
    if discard {
      var h := s.held[i].(size := 0, discarded := true);
      RewriteBooks(s, i, h, pool);
      DisposeKeeps(s.(held := s.held[i := h]), i, pool);
    } else {
      DisposeKeeps(s, i, pool);
    }
  }

  lemma DataBlockGetKeeps(s: Mbox, i: nat, discard: bool, gotBlock: bool, pool: multiset<nat>)
    requires Inv(s, pool) && i < |s.held|
    ensures var t := DataBlockGet(s, i, discard, gotBlock);
            && Inv(t, pool)
            && (if discard || s.held[i].attached || gotBlock then
                  Completes(s, t, i, discard, !discard && s.held[i].attached)
                else t == s)
  {
    DataGetKeeps(s, i, discard, pool);
    if !discard && s.held[i].attached {
      var h := s.held[i].(attached := false, given := true);
      RewriteBooks(s, i, h, pool);
      DisposeKeeps(s.(held := s.held[i := h]), i, pool);
    }
  }

  /** A receiver that gave a buffer, or got an empty message, completes it at once; else it
      is kept for later and its sender has learnt nothing. */
  lemma DataCheckKeeps(s: Mbox, i: nat, pool: multiset<nat>)
    requires Inv(s, pool) && i < |s.held|
    ensures Inv(DataCheck(s, i), pool)
    ensures if s.held[i].rx.buffer || s.held[i].size == 0 then Completes(s, DataCheck(s, i), i, false, false)
            else DataCheck(s, i).done == s.done && DataCheck(s, i).held[i].syncing == s.held[i].syncing
  {
    var t := s.(held := s.held[i := s.held[i].(checked := true)]);
    RewriteBooks(s, i, s.held[i].(checked := true), pool);
    DataGetKeeps(t, i, false, pool);
    DisposeKeeps(t, i, pool);
  }

  // ---------- sending and receiving ----------

  ghost predicate Adds(pool: multiset<nat>, x: Sender, pool': multiset<nat>) {
    forall d: nat :: pool'[d] == pool[d] + One(Uses(x, d))
  }

  lemma PutBooks(s: Mbox, t: Tx, noWait: bool, pool: multiset<nat>, pool': multiset<nat>)
    requires Books(s, pool) && t.mid == s.next && Adds(pool, t.sender, pool') && (noWait ==> t.sender.Sync?)
    ensures Books(PutCall(s, t, noWait), pool')
  {
    var u, k := PutCall(s, t, noWait), FirstRx(s.rx, t, 0);
    forall x ensures OnceFor(u, x) {
      assert OnceFor(s, x);
      if k < |s.rx| { CountPush(s.held, Match(t, s.rx[k]), HeldIs(x)); }
      else if noWait { CountPush(s.failed, FailedSend(t.mid, NoMsg), FailedIs(x)); }
      else { CountInsert(s.tx, t, TxPrio, TxIs(x)); }
    }
    forall d ensures PoolFor(u, d, pool') {
      assert PoolFor(s, d, pool);
      if k < |s.rx| { CountPush(s.held, Match(t, s.rx[k]), HeldUses(d)); }
      else if !noWait { CountInsert(s.tx, t, TxPrio, TxUses(d)); }
    }
  }

  lemma PutComplete(s: Mbox, t: Tx, noWait: bool)
    requires Complete(s) && Sorted(s.tx, TxPrio) && Sorted(s.rx, RxPrio)
    ensures var u := PutCall(s, t, noWait); Complete(u) && Sorted(u.tx, TxPrio) && Sorted(u.rx, RxPrio)
  {
    var k := FirstRx(s.rx, t, 0);
    if k < |s.rx| {
      RemoveKeepsSorted(s.rx, k, RxPrio);
    } else {
      InsertKeepsSorted(s.tx, t, TxPrio);
      var m := Place(s.tx, t, TxPrio, 0);
      var q := Insert(s.tx, t, TxPrio);
      assert forall i :: 0 <= i < |q| ==> q[i] == if i < m then s.tx[i] else if i == m then t else s.tx[i - 1];
    }
  }

  lemma PutKeeps(s: Mbox, t: Tx, noWait: bool, pool: multiset<nat>, pool': multiset<nat>)
    requires Inv(s, pool) && t.mid == s.next && Adds(pool, t.sender, pool') && (noWait ==> t.sender.Sync?)
    ensures Inv(PutCall(s, t, noWait), pool')
  {
    PutBooks(s, t, noWait, pool, pool');
    PutComplete(s, t, noWait);
  }

  lemma ReceiveBooks(s: Mbox, r: Rx, k: nat, pool: multiset<nat>)
    requires Books(s, pool) && k < |s.tx|
    ensures Books(s.(tx := RemoveAt(s.tx, k), held := s.held + [Match(s.tx[k], r)]), pool)
  {
    var u := s.(tx := RemoveAt(s.tx, k), held := s.held + [Match(s.tx[k], r)]);
    forall x ensures OnceFor(u, x) {
      assert OnceFor(s, x);
      CountPush(s.held, Match(s.tx[k], r), HeldIs(x));
      CountRemove(s.tx, k, TxIs(x));
    }
    forall d ensures PoolFor(u, d, pool) {
      assert PoolFor(s, d, pool);
      CountPush(s.held, Match(s.tx[k], r), HeldUses(d));
      CountRemove(s.tx, k, TxUses(d));
    }
  }

  /** The books do not involve the receivers. */
  lemma RxBooks(s: Mbox, q: seq<Rx>, missed: seq<FailedReceive>, pool: multiset<nat>)
    requires Books(s, pool)
    ensures Books(s.(rx := q, missed := missed), pool)
  {
    var u := s.(rx := q, missed := missed);
    forall x ensures OnceFor(u, x) { assert OnceFor(s, x); }
    forall d ensures PoolFor(u, d, pool) { assert PoolFor(s, d, pool); }
  }

  /** The receiver took sender `k`. */
  lemma MatchKeeps(s: Mbox, r: Rx, k: nat, pool: multiset<nat>)
    requires Inv(s, pool) && k < |s.tx| && Agree(s.tx[k], r)
    ensures Inv(s.(tx := RemoveAt(s.tx, k), held := s.held + [Match(s.tx[k], r)]), pool)
  {
    ReceiveBooks(s, r, k, pool);
    RemoveKeepsSorted(s.tx, k, TxPrio);
  }

  /** The receiver waits. */
  lemma RxKeeps(s: Mbox, r: Rx, pool: multiset<nat>)
    requires Inv(s, pool) && forall i :: 0 <= i < |s.tx| ==> !Agree(s.tx[i], r)
    ensures Inv(s.(rx := Insert(s.rx, r, RxPrio)), pool)
  {
    RxBooks(s, Insert(s.rx, r, RxPrio), s.missed, pool);
    InsertKeepsSorted(s.rx, r, RxPrio);
    var m, q := Place(s.rx, r, RxPrio, 0), Insert(s.rx, r, RxPrio);
    assert forall i :: 0 <= i < |q| ==> q[i] == if i < m then s.rx[i] else if i == m then r else s.rx[i - 1];
  }

  lemma GetKeeps(s: Mbox, r: Rx, noWait: bool, pool: multiset<nat>)
    requires Inv(s, pool)
    ensures Inv(GetCall(s, r, noWait), pool)
  {
    var k := FirstTx(s.tx, r, 0);
    if k < |s.tx| {
      MatchKeeps(s, r, k, pool);
      DataCheckKeeps(s.(tx := RemoveAt(s.tx, k), held := s.held + [Match(s.tx[k], r)]), |s.held|, pool);
    } else if noWait {
      RxBooks(s, s.rx, s.missed + [FailedReceive(r, NoMsg)], pool);
    } else {
      RxKeeps(s, r, pool);
    }
  }

  lemma TxTimeoutKeeps(s: Mbox, i: nat, pool: multiset<nat>)
    requires Inv(s, pool) && i < |s.tx| && s.tx[i].sender.Sync?
    ensures Inv(s.(tx := RemoveAt(s.tx, i), failed := s.failed + [FailedSend(s.tx[i].mid, Again)]), pool)
  {
    var u := s.(tx := RemoveAt(s.tx, i), failed := s.failed + [FailedSend(s.tx[i].mid, Again)]);
    RemoveKeepsSorted(s.tx, i, TxPrio);
    forall x ensures OnceFor(u, x) {
      assert OnceFor(s, x);
      CountRemove(s.tx, i, TxIs(x));
      CountPush(s.failed, FailedSend(s.tx[i].mid, Again), FailedIs(x));
    }
    forall d ensures PoolFor(u, d, pool) {
      assert PoolFor(s, d, pool);
      CountRemove(s.tx, i, TxUses(d));
    }
  }

  lemma RxTimeoutKeeps(s: Mbox, i: nat, pool: multiset<nat>)
    requires Inv(s, pool) && i < |s.rx|
    ensures Inv(s.(rx := RemoveAt(s.rx, i), missed := s.missed + [FailedReceive(s.rx[i], Again)]), pool)
  {
    var u := s.(rx := RemoveAt(s.rx, i), missed := s.missed + [FailedReceive(s.rx[i], Again)]);
    RemoveKeepsSorted(s.rx, i, RxPrio);
    RxBooks(s, u.rx, u.missed, pool);
  }

  lemma AsyncPutKeeps(s: Mbox, tid: nat, prio: int, target: Option<nat>, size: nat, info: nat, block: bool, sem: bool,
                      pool: multiset<nat>)
    requires Inv(s, pool)
    ensures Inv(AsyncPutCall(s, tid, prio, target, size, info, block, sem), pool)
  {
    if s.asyncFree == [] { return; }
    var n := |s.asyncFree| - 1;
    var free, d := s.asyncFree[..n], s.asyncFree[n];
    assert s.asyncFree == free + [d];
    var u, less := s.(asyncFree := free), pool - multiset{d};
    forall x: nat ensures PoolFor(u, x, less) && pool[x] == less[x] + One(x == d) {
      assert PoolFor(s, x, pool);
      CountPush(free, d, Is(x));
    }
    assert forall x :: OnceFor(s, x) ==> OnceFor(u, x);
    PutKeeps(u, Tx(s.next, Async(d, sem), prio, tid, target, size, info, block), false, less, pool);
  }

  lemma StepKeeps(s: Mbox, e: Event, pool: multiset<nat>)
    requires Inv(s, pool) && Enabled(s, e)
    ensures Inv(Step(s, e), pool)
  {
    match e
    case Put(tid, prio, target, size, info, block, noWait) =>
      PutKeeps(s, Tx(s.next, Sync(tid), prio, tid, target, size, info, block), noWait, pool, pool);
    case AsyncPut(tid, prio, target, size, info, block, sem) =>
      AsyncPutKeeps(s, tid, prio, target, size, info, block, sem, pool);
    case Get(r, noWait) => GetKeeps(s, r, noWait, pool);
    case ReceiverResumes(i) => DataCheckKeeps(s, i, pool);
    case Retrieve(i, discard) => DataGetKeeps(s, i, discard, pool);
    case RetrieveBlock(i, discard, gotBlock) => DataBlockGetKeeps(s, i, discard, gotBlock, pool);
    case TxTimeout(i) => TxTimeoutKeeps(s, i, pool);
    case RxTimeout(i) => RxTimeoutKeeps(s, i, pool);
  }

  ghost predicate IsRun(states: seq<Mbox>, events: seq<Event>) {
    && |states| == |events| + 1
    && forall i {:trigger events[i]} :: 0 <= i < |events| ==>
         Enabled(states[i], events[i]) && states[i + 1] == Step(states[i], events[i])
  }

  /** `k_mbox_init`, with a pool of free asynchronous descriptors. */
  function Init(free: seq<nat>): Mbox { Mbox([], [], [], free, 0, 0, [], [], []) }

  lemma {:induction false} CountIsMultiplicity(q: seq<nat>, x: nat)
    ensures Count(q, Is(x)) == multiset(q)[x]
  {
    if q != [] {
      CountIsMultiplicity(q[1..], x);
      assert q == [q[0]] + q[1..];
    }
  }

  /** In every state of every run: no compatible sender and receiver wait, every send is in
      exactly one stage, every semaphore and descriptor is accounted for, sizes are right. */
  lemma {:induction false} EveryRunIsSafe(free: seq<nat>, states: seq<Mbox>, events: seq<Event>, n: nat)
    requires IsRun(states, events) && states[0] == Init(free) && n < |states|
    ensures Inv(states[n], multiset(free))
    decreases n
  {
    if n == 0 {
      forall x ensures OnceFor(Init(free), x) {}
      forall d ensures PoolFor(Init(free), d, multiset(free)) { CountIsMultiplicity(free, d); }
    } else {
      EveryRunIsSafe(free, states, events, n - 1);
      StepKeeps(states[n - 1], events[n - 1], multiset(free));
    }
  }
}
