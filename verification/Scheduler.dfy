/** The uniprocessor scheduler: ready queue, next-thread cache and preemption rules.

    The ready queue is the sorted list; the other two queue builds hold the same sequence. */
module Scheduler {
  import opened PriorityList
  import opened ReadyQueues

  /** `blocked` is any state bit that prevents running, `timed` an active timeout, `queued`
      the bit that says the thread is on the ready queue, `locked` the depth of scheduler
      locking.  A thread can be ready by its bits without being queued: a mailbox unpends a
      sender when it matches its message and readies it only when the message is disposed
      of. */
  datatype Info = Info(prio: int, locked: nat, blocked: bool, timed: bool, queued: bool)

  /** `metaTop` is the first priority number that is not a meta-IRQ's. */
  datatype Sched = Sched(threads: map<nat, Info>, runq: seq<Thread>, current: nat, cache: nat, idle: nat, metaTop: int)

  ghost predicate Known(s: Sched) {
    s.current in s.threads && s.idle in s.threads && forall t :: t in s.runq ==> t.id in s.threads
  }

  /** `_is_thread_ready`. */
  predicate Ready(i: Info) { !i.blocked && !i.timed }

  /** `_is_preempt`: priority not negative and scheduler not locked. */
  predicate Preemptible(i: Info) { i.prio >= 0 && i.locked == 0 }

  /** `next_up`. */
  function Best(s: Sched): nat { if s.runq == [] then s.idle else s.runq[0].id }

  function BestPrio(s: Sched): int
    requires s.idle in s.threads
  {
    if s.runq == [] then s.threads[s.idle].prio else s.runq[0].prio
  }

  /** `should_preempt`. */
  predicate ShouldPreempt(s: Sched, preemptOk: bool)
    requires s.current in s.threads && s.idle in s.threads
  {
    || preemptOk || !Ready(s.threads[s.current]) || Preemptible(s.threads[s.current])
    || BestPrio(s) < s.metaTop || s.current == s.idle
  }

  /** `update_cache`. */
  function UpdateCache(s: Sched, preemptOk: bool): Sched
    requires s.current in s.threads && s.idle in s.threads
  {
    s.(cache := if ShouldPreempt(s, preemptOk) then Best(s) else s.current)
  }

  function Enqueue(s: Sched, t: nat): Sched
    requires t in s.threads
  {
    s.(runq := Insert(s.runq, Thread(t, s.threads[t].prio), Prio),
       threads := s.threads[t := s.threads[t].(queued := true)])
  }

  function Dequeue(s: Sched, t: nat): Sched
    requires t in s.threads
  {
    s.(runq := Without(s.runq, t), threads := s.threads[t := s.threads[t].(queued := false)])
  }

  /** The queue is the queued threads in priority order, all of them ready; idle is ready
      and never queued, and a ready current thread is queued unless it is idle. */
  ghost predicate QueueOk(s: Sched) {
    && Known(s) && Distinct(s.runq) && Sorted(s.runq, Prio)
    && (forall x :: x in s.runq ==> Ready(s.threads[x.id]) && s.threads[x.id].queued && x.prio == s.threads[x.id].prio)
    && (forall t :: t in s.threads && s.threads[t].queued ==> Thread(t, s.threads[t].prio) in s.runq)
    && Ready(s.threads[s.idle]) && !s.threads[s.idle].queued
    && (Ready(s.threads[s.current]) ==> s.threads[s.current].queued || s.current == s.idle)
  }

  /** The cache is the head of the queue, or a ready current thread that is not idle. */
  ghost predicate CacheNear(s: Sched)
    requires s.current in s.threads
  {
    s.cache == Best(s) || (s.cache == s.current && Ready(s.threads[s.current]) && s.current != s.idle)
  }

  /** As above, and a current thread cached in front of a better one is not preemptible. */
  ghost predicate CacheOk(s: Sched)
    requires s.current in s.threads
  {
    CacheNear(s) && (s.cache == Best(s) || !Preemptible(s.threads[s.current]))
  }

  /** What holds whatever the unlocks. */
  ghost predicate Near(s: Sched) { QueueOk(s) && CacheNear(s) }

  ghost predicate Inv(s: Sched) { QueueOk(s) && CacheOk(s) }

  datatype Event =
    | Wake(t: nat, blocked: bool, timed: bool)     // state bits cleared, then `_ready_thread`
    | Block(t: nat, blocked: bool, timed: bool)    // `_remove_thread_from_ready_q`, then state bits set
    | Unpend(t: nat, blocked: bool, timed: bool)   // `_unpend_thread` and the like: state bits alone
    | MoveToEnd(t: nat)                            // `_move_thread_to_end_of_prio_q`
    | SetPrio(t: nat, prio: int)                   // `_thread_priority_set`
    | Yield                                        // `k_yield`
    | Lock                                         // `_sched_lock`
    | Unlock                                       // `k_sched_unlock`
    | QuietUnlock                                  // `_sched_unlock_no_reschedule`
    | Swap                                         // context switch to the cached thread

  /** What the kernel can be asked to do.  A queued thread keeps its bits, and the current
      thread is not unpended, since it runs. */
  predicate Possible(s: Sched, e: Event) {
    match e
    case Wake(t, _, _) => t in s.threads && t != s.idle
    case Block(t, blocked, timed) => t in s.threads && t != s.idle && (blocked || timed)
    case Unpend(t, _, _) => t in s.threads && t != s.idle && t != s.current && !s.threads[t].queued
    case MoveToEnd(t) => t in s.threads && t != s.idle && Ready(s.threads[t])
    case SetPrio(t, _) => t in s.threads && t != s.idle
    case Yield => s.current in s.threads && Ready(s.threads[s.current])
    case Lock => s.current in s.threads
    case Unlock => s.current in s.threads && s.threads[s.current].locked > 0
    case QuietUnlock => s.current in s.threads && s.threads[s.current].locked > 0
    case Swap => true
  }

  /** What its queue survives: a queued thread is not readied again (`WakeKeepsIff`), and the
      priority of a thread that is ready and not queued is not changed (`SetPrioKeepsIff`). */
  predicate Careful(s: Sched, e: Event) {
    && (e.Wake? && e.t in s.threads ==> !s.threads[e.t].queued)
    && (e.SetPrio? && e.t in s.threads ==> s.threads[e.t].queued || !Ready(s.threads[e.t]))
  }

  predicate Enabled(s: Sched, e: Event) { Possible(s, e) && Careful(s, e) }

  function SetBits(s: Sched, t: nat, blocked: bool, timed: bool): Sched
    requires t in s.threads
  {
    s.(threads := s.threads[t := s.threads[t].(blocked := blocked, timed := timed)])
  }

  function WakeCall(s: Sched, t: nat, blocked: bool, timed: bool): Sched
    requires t in s.threads && s.current in s.threads && s.idle in s.threads
  {
    var u := SetBits(s, t, blocked, timed);
    if Ready(u.threads[t]) then UpdateCache(Enqueue(u, t), false) else u
  }

  function BlockCall(s: Sched, t: nat, blocked: bool, timed: bool): Sched
    requires t in s.threads && s.current in s.threads && s.idle in s.threads
  {
    var u := if s.threads[t].queued then UpdateCache(Dequeue(s, t), t == s.current) else s;
    SetBits(u, t, blocked, timed)
  }

  function SetPrioOnly(s: Sched, t: nat, prio: int): Sched
    requires t in s.threads
  {
    s.(threads := s.threads[t := s.threads[t].(prio := prio)])
  }

  /** Unlink, link at `prio`, refresh; `mark` says whether the queued bit is set. */
  function RequeueCall(s: Sched, t: nat, prio: int, preemptOk: bool, mark: bool): Sched
    requires t in s.threads && s.current in s.threads && s.idle in s.threads
  {
    var u := s.(runq := Insert(Without(s.runq, t), Thread(t, prio), Prio),
                threads := s.threads[t := s.threads[t].(prio := prio, queued := s.threads[t].queued || mark)]);
    UpdateCache(u, preemptOk)
  }

  /** `_thread_priority_set` tests the state bits, not the queued bit, and does not set it. */
  function SetPrioCall(s: Sched, t: nat, prio: int): Sched
    requires t in s.threads && s.current in s.threads && s.idle in s.threads
  {
    if Ready(s.threads[t]) then RequeueCall(s, t, prio, true, false) else SetPrioOnly(s, t, prio)
  }

  function SetLock(s: Sched, depth: nat): Sched
    requires s.current in s.threads
  {
    s.(threads := s.threads[s.current := s.threads[s.current].(locked := depth)])
  }

  function Step(s: Sched, e: Event): Sched
    requires s.current in s.threads && s.idle in s.threads && Possible(s, e)
  {
    match e
    case Wake(t, blocked, timed) => WakeCall(s, t, blocked, timed)
    case Block(t, blocked, timed) => BlockCall(s, t, blocked, timed)
    case Unpend(t, blocked, timed) => SetBits(s, t, blocked, timed)
    case MoveToEnd(t) => RequeueCall(s, t, s.threads[t].prio, false, true)
    case SetPrio(t, prio) => SetPrioCall(s, t, prio)
    case Yield => if s.current == s.idle then s else RequeueCall(s, s.current, s.threads[s.current].prio, true, true)
    case Lock => SetLock(s, s.threads[s.current].locked + 1)
    case Unlock => UpdateCache(SetLock(s, s.threads[s.current].locked - 1), true)
    case QuietUnlock => SetLock(s, s.threads[s.current].locked - 1)
    case Swap => s.(current := s.cache)
  }

  // ---------- the queue ----------

  /** All of `QueueOk` but for one thread, which is not queued. */
  ghost predicate QueueBut(s: Sched, t: nat) {
    && Known(s) && Distinct(s.runq) && Sorted(s.runq, Prio) && t in s.threads && t != s.idle
    && Ready(s.threads[s.idle]) && !s.threads[s.idle].queued
    && (forall x :: x in s.runq ==>
          x.id != t && Ready(s.threads[x.id]) && s.threads[x.id].queued && x.prio == s.threads[x.id].prio)
    && (forall u :: u in s.threads && u != t && s.threads[u].queued ==> Thread(u, s.threads[u].prio) in s.runq)
    && (s.current != t && Ready(s.threads[s.current]) ==> s.threads[s.current].queued || s.current == s.idle)
  }

  /** Unlinking a thread, whatever is then written to its record. */
  lemma Unlinked(s: Sched, t: nat, i: Info)
    requires QueueOk(s) && t in s.threads && t != s.idle
    ensures QueueBut(s.(runq := Without(s.runq, t), threads := s.threads[t := i]), t)
  {
    WithoutMembers(s.runq, t);
    WithoutDistinct(s.runq, t);
    WithoutSorted(s.runq, t);
  }

  /** A thread that is not queued is not on the queue. */
  lemma NotQueued(s: Sched, t: nat, i: Info)
    requires QueueOk(s) && t in s.threads && t != s.idle && !s.threads[t].queued
    ensures QueueBut(s.(threads := s.threads[t := i]), t)
  {
  }

  /** The queue with `t` linked in, marked and ready. */
  lemma Linked(s: Sched, t: nat, u: Sched)
    requires QueueBut(s, t) && u.runq == Insert(s.runq, Thread(t, s.threads[t].prio), Prio)
    requires u.threads == s.threads[t := s.threads[t].(queued := true)] && Ready(s.threads[t])
    requires u.idle == s.idle && u.current == s.current
    ensures QueueOk(u)
  {
    var x := Thread(t, s.threads[t].prio);
    InsertKeepsSorted(s.runq, x, Prio);
    InsertDistinct(s.runq, x);
    InsertMembers(s.runq, x, Prio);
  }

  /** Leaving `t` off the queue. */
  lemma LeftOff(s: Sched, t: nat)
    requires QueueBut(s, t) && !s.threads[t].queued && (s.current == t ==> !Ready(s.threads[t]))
    ensures QueueOk(s)
  {
  }

  // ---------- every step ----------

  /** A refresh makes the cache right whatever it was: the head of the queue, or a ready,
      non-preemptible, non-idle current thread that it may keep. */
  lemma UpdateRestores(s: Sched, preemptOk: bool)
    requires QueueOk(s)
    ensures var u := UpdateCache(s, preemptOk);
            && Inv(u)
            && ((preemptOk || s.current == s.idle || Preemptible(s.threads[s.current]) ||
                 !Ready(s.threads[s.current])) ==>
                  forall t :: t in s.threads && s.threads[t].queued ==>
                    u.cache != s.idle && u.cache in s.threads && s.threads[u.cache].prio <= s.threads[t].prio)
  {
    BestOutranks(s);
  }

  /** The events that refresh the cache. */
  predicate Refreshes(s: Sched, e: Event) {
    match e
    case Wake(_, blocked, timed) => !blocked && !timed
    case Block(t, _, _) => t in s.threads && s.threads[t].queued
    case Unpend(_, _, _) => false
    case MoveToEnd(_) => true
    case SetPrio(t, _) => t in s.threads && Ready(s.threads[t])
    case Yield => s.current != s.idle
    case Lock => false
    case Unlock => true
    case QuietUnlock => false
    case Swap => false
  }

  /** `QueueOk` does not depend on the cache. */
  lemma WakeQueue(s: Sched, t: nat, blocked: bool, timed: bool)
    requires QueueOk(s) && Enabled(s, Wake(t, blocked, timed))
    ensures QueueOk(WakeCall(s, t, blocked, timed))
  {
    var i := s.threads[t].(blocked := blocked, timed := timed);
    NotQueued(s, t, i);
    var u := SetBits(s, t, blocked, timed);
    if Ready(i) { Linked(u, t, WakeCall(s, t, blocked, timed)); } else { LeftOff(u, t); }
  }

  lemma UnlinkedQueue(s: Sched, t: nat, i: Info)
    requires QueueOk(s) && t in s.threads && t != s.idle && !Ready(i) && !i.queued
    ensures QueueOk(s.(runq := Without(s.runq, t), threads := s.threads[t := i]))
  {
    Unlinked(s, t, i);
    LeftOff(s.(runq := Without(s.runq, t), threads := s.threads[t := i]), t);
  }

  lemma BlockQueue(s: Sched, t: nat, blocked: bool, timed: bool)
    requires QueueOk(s) && Enabled(s, Block(t, blocked, timed))
    ensures QueueOk(BlockCall(s, t, blocked, timed))
  {
    var i := s.threads[t].(blocked := blocked, timed := timed, queued := false);
    var u := BlockCall(s, t, blocked, timed);
    assert u.threads == s.threads[t := i];
    if s.threads[t].queued {
      UnlinkedQueue(s, t, i);
    } else {
      NotQueued(s, t, i);
      LeftOff(u, t);
    }
  }

  lemma RequeueQueue(s: Sched, t: nat, prio: int, preemptOk: bool, mark: bool)
    requires QueueOk(s) && t in s.threads && t != s.idle && Ready(s.threads[t]) && (s.threads[t].queued || mark)
    ensures QueueOk(RequeueCall(s, t, prio, preemptOk, mark))
  {
    var i := s.threads[t].(prio := prio);
    Unlinked(s, t, i);
    Linked(s.(runq := Without(s.runq, t), threads := s.threads[t := i]), t, RequeueCall(s, t, prio, preemptOk, mark));
  }

  lemma RecordQueue(s: Sched, t: nat, i: Info)
    requires QueueOk(s) && t in s.threads && t != s.idle && t != s.current && !s.threads[t].queued && !i.queued
    ensures QueueOk(s.(threads := s.threads[t := i]))
  {
  }

  lemma SetLockQueue(s: Sched, depth: nat)
    requires QueueOk(s)
    ensures QueueOk(SetLock(s, depth))
  {
  }

  lemma SetPrioQueue(s: Sched, t: nat, prio: int)
    requires QueueOk(s) && Enabled(s, SetPrio(t, prio))
    ensures QueueOk(SetPrioCall(s, t, prio))
  {
    if Ready(s.threads[t]) {
      RequeueQueue(s, t, prio, true, false);
    } else {
      NotQueued(s, t, s.threads[t].(prio := prio));
      LeftOff(SetPrioOnly(s, t, prio), t);
    }
  }

  /** The operations that may move threads. */
  lemma MoveQueue(s: Sched, e: Event)
    requires QueueOk(s) && Enabled(s, e) && (e.Wake? || e.Block? || e.MoveToEnd? || e.SetPrio? || e.Yield?)
    ensures QueueOk(Step(s, e))
  {
    match e
    case Wake(t, blocked, timed) => WakeQueue(s, t, blocked, timed);
    case Block(t, blocked, timed) => BlockQueue(s, t, blocked, timed);
    case MoveToEnd(t) => RequeueQueue(s, t, s.threads[t].prio, false, true);
    case SetPrio(t, prio) => SetPrioQueue(s, t, prio);
    case Yield => if s.current != s.idle { RequeueQueue(s, s.current, s.threads[s.current].prio, true, true); }
  }

  lemma QuietQueue(s: Sched, e: Event)
    requires Near(s) && Enabled(s, e) && (e.Unpend? || e.Lock? || e.Unlock? || e.QuietUnlock? || e.Swap?)
    ensures QueueOk(Step(s, e))
  {
    match e
    case Unpend(t, blocked, timed) => RecordQueue(s, t, s.threads[t].(blocked := blocked, timed := timed));
    case Lock => SetLockQueue(s, s.threads[s.current].locked + 1);
    case Unlock => UnlockQueue(s, s.threads[s.current].locked - 1);
    case QuietUnlock => SetLockQueue(s, s.threads[s.current].locked - 1);
    case Swap => SwapQueue(s);
  }

  lemma StepQueue(s: Sched, e: Event)
    requires Near(s) && Enabled(s, e)
    ensures QueueOk(Step(s, e))
  {
    if e.Wake? || e.Block? || e.MoveToEnd? || e.SetPrio? || e.Yield? { MoveQueue(s, e); } else { QuietQueue(s, e); }
  }

  lemma UnlockQueue(s: Sched, depth: nat)
    requires QueueOk(s)
    ensures QueueOk(UpdateCache(SetLock(s, depth), true))
  {
    SetLockQueue(s, depth);
  }

  lemma SwapQueue(s: Sched)
    requires Near(s)
    ensures QueueOk(s.(current := s.cache))
  {
    assert s.runq != [] ==> s.runq[0] in s.runq;
  }

  /** Changing the priority of a ready thread puts it on the queue without marking it, so a
      thread that is ready and not queued is put there behind the scheduler's back.  The
      call keeps the queue right exactly when the thread is queued or not ready. */
  lemma SetPrioKeepsIff(s: Sched, t: nat, prio: int)
    requires QueueOk(s) && t in s.threads && t != s.idle
    ensures QueueOk(SetPrioCall(s, t, prio)) <==> s.threads[t].queued || !Ready(s.threads[t])
  {
    if s.threads[t].queued || !Ready(s.threads[t]) {
      SetPrioQueue(s, t, prio);
    } else {
      InsertMembers(Without(s.runq, t), Thread(t, prio), Prio);
      assert Thread(t, prio) in SetPrioCall(s, t, prio).runq;
    }
  }

  lemma InsertedTwice(q: seq<Thread>, x: Thread)
    requires x in q
    ensures !Distinct(Insert(q, x, Prio))
  {
    var k :| 0 <= k < |q| && q[k] == x;
    var p := Place(q, x, Prio, 0);
    var r := Insert(q, x, Prio);
    assert r[p] == x && r[if k < p then k else k + 1] == x;
  }

  /** `_ready_thread` links a thread that is on the queue a second time.  It keeps the queue
      right exactly when the thread is not queued. */
  lemma WakeKeepsIff(s: Sched, t: nat, blocked: bool, timed: bool)
    requires QueueOk(s) && t in s.threads && t != s.idle
    ensures QueueOk(WakeCall(s, t, blocked, timed)) <==> !s.threads[t].queued
  {
    if s.threads[t].queued {
      InsertedTwice(s.runq, Thread(t, s.threads[t].prio));
    } else {
      WakeQueue(s, t, blocked, timed);
    }
  }

  lemma {:induction false} WithoutOne(q: seq<Thread>, x: Thread, i: nat, j: nat)
    requires i < j < |q| && q[i] == q[j] == x
    ensures x in Without(q, x.id)
  {
    if q[0].id == x.id {
      assert q[1..][j - 1] == x;
    } else {
      WithoutOne(q[1..], x, i - 1, j - 1);
    }
  }

  /** A queued thread that is resumed and then blocks stays on the queue. */
  lemma ResumedThenBlocked(s: Sched, t: nat, blocked: bool, timed: bool)
    requires QueueOk(s) && t in s.threads && t != s.idle && s.threads[t].queued && (blocked || timed)
    ensures var u := BlockCall(WakeCall(s, t, false, false), t, blocked, timed);
            Thread(t, s.threads[t].prio) in u.runq && !Ready(u.threads[t])
  {
    var x, q := Thread(t, s.threads[t].prio), s.runq;
    var k :| 0 <= k < |q| && q[k] == x;
    var p, r := Place(q, x, Prio, 0), Insert(q, x, Prio);
    assert k < p ==> r[k] == x && r[p] == x;
    WithoutOne(r, x, k, p);
  }

  /** `k_thread_resume` of a thread that is not suspended, here by the thread itself: its
      documentation promises no effect. */
  lemma ResumeQueuesTwice()
    ensures var s := Sched(map[0 := Info(15, 0, false, false, false), 1 := Info(5, 0, false, false, true)],
                           [Thread(1, 5)], 1, 1, 0, -16);
            && Inv(s) && Possible(s, Wake(1, false, false))
            && Step(s, Wake(1, false, false)).runq == [Thread(1, 5), Thread(1, 5)]
  {
    var one := Thread(1, 5);
    assert Place([one], one, Prio, 0) == 1;
    assert Insert([one], one, Prio) == [one, one];
  }

  /** Readying such a thread then queues it a second time. */
  lemma QueuedTwice(s: Sched, t: nat, prio: int)
    requires QueueOk(s) && t in s.threads && t != s.idle && Ready(s.threads[t]) && !s.threads[t].queued
    ensures var u := SetPrioCall(s, t, prio);
            Possible(u, Wake(t, false, false)) && !Distinct(Step(u, Wake(t, false, false)).runq)
  {
    var x, q := Thread(t, prio), Without(s.runq, t);
    InsertMembers(q, x, Prio);
    InsertedTwice(Insert(q, x, Prio), x);
  }

  /** A mailbox's sender: unpended when its message is matched, not yet readied, then given
      a new priority. */
  lemma MatchedSenderBreaksQueue()
    ensures var s := Sched(map[0 := Info(15, 0, false, false, false), 1 := Info(5, 0, false, false, true),
                               2 := Info(3, 0, true, false, false)], [Thread(1, 5)], 1, 1, 0, -16);
            && Inv(s) && Enabled(s, Unpend(2, false, false))
            && !QueueOk(SetPrioCall(Step(s, Unpend(2, false, false)), 2, 4))
  {
    var s := Sched(map[0 := Info(15, 0, false, false, false), 1 := Info(5, 0, false, false, true),
                       2 := Info(3, 0, true, false, false)], [Thread(1, 5)], 1, 1, 0, -16);
    assert Inv(s);
    StepQueue(s, Unpend(2, false, false));
    SetPrioKeepsIff(Step(s, Unpend(2, false, false)), 2, 4);
  }

  /** Every event keeps the cache at the head of the queue or the current thread. */
  lemma StepNear(s: Sched, e: Event)
    requires Near(s) && Enabled(s, e)
    ensures Near(Step(s, e))
    ensures Refreshes(s, e) ==> Inv(Step(s, e))
  {
    StepQueue(s, e);
    if e.Swap? { assert s.runq != [] ==> s.runq[0] in s.runq; }
  }

  /** The quiet unlock leaves the cache right exactly when it is the head of the queue or
      the current thread is still not preemptible. */
  predicate QuietOk(s: Sched)
    requires s.current in s.threads && s.threads[s.current].locked > 0
  {
    s.cache == Best(s) || s.threads[s.current].prio < 0 || s.threads[s.current].locked > 1
  }

  lemma QuietUnlockKeepsIff(s: Sched)
    requires Near(s) && Enabled(s, QuietUnlock)
    ensures Inv(Step(s, QuietUnlock)) <==> QuietOk(s)
  {
    StepNear(s, QuietUnlock);
  }

  lemma StepKeeps(s: Sched, e: Event)
    requires Inv(s) && Enabled(s, e) && (e.QuietUnlock? ==> QuietOk(s))
    ensures Inv(Step(s, e))
  {
    if e.QuietUnlock? { QuietUnlockKeepsIff(s); } else { StepNear(s, e); }
  }

  lemma StepBoth(s: Sched, e: Event)
    requires Near(s) && Enabled(s, e)
    ensures Near(Step(s, e))
    ensures Refreshes(s, e) || (Inv(s) && !e.QuietUnlock?) ==> Inv(Step(s, e))
  {
    StepNear(s, e);
    if Inv(s) && !e.QuietUnlock? { StepKeeps(s, e); }
  }

  /** `k_pipe_block_put` by a preemptible thread while a better reader waits: the reader is
      readied under the scheduler lock, the quiet unlock does not refresh, pending the
      dummy thread does not either, and `_reschedule` finds the caller still cached. */
  lemma BlockPutLeavesReader()
    ensures var s := Sched(map[0 := Info(15, 0, false, false, false), 1 := Info(5, 0, false, false, true),
                               2 := Info(2, 0, true, false, false), 3 := Info(5, 0, true, false, false)],
                           [Thread(1, 5)], 1, 1, 0, -16);
            && Inv(s) && Enabled(s, Lock)
            && var a := Step(s, Lock);
               && Enabled(a, Wake(2, false, false))
               && var b := Step(a, Wake(2, false, false));
                  && Enabled(b, QuietUnlock)
                  && var c := Step(b, QuietUnlock);
                     && Enabled(c, Block(3, true, false))
                     && var d := Step(c, Block(3, true, false));
                        && d.cache == d.current == 1 && Best(d) == 2 && d.threads[2].prio < d.threads[1].prio
                        && Preemptible(d.threads[1]) && !Inv(d)
  {
    var one, two := Thread(1, 5), Thread(2, 2);
    assert Place([one], two, Prio, 0) == 0;
    assert Insert([one], two, Prio) == [two, one];
  }

  // ---------- runs ----------

  ghost predicate Follows(s: Sched, e: Event, t: Sched) {
    s.current in s.threads && s.idle in s.threads && Possible(s, e) && t == Step(s, e)
  }

  ghost predicate IsRun(states: seq<Sched>, events: seq<Event>) {
    && |states| == |events| + 1
    && forall i {:trigger events[i]} :: 0 <= i < |events| ==> Follows(states[i], events[i], states[i + 1])
  }

  lemma Taken(states: seq<Sched>, events: seq<Event>, i: nat, s: Sched, e: Event, t: Sched)
    requires IsRun(states, events) && i < |events| && s == states[i] && e == events[i] && t == states[i + 1]
    ensures Follows(s, e, t)
  {
  }

  /** The first `n` events are careful. */
  ghost predicate CarefulTo(states: seq<Sched>, events: seq<Event>, n: nat)
    requires n <= |events| && |states| == |events| + 1
  {
    forall i {:trigger events[i]} :: 0 <= i < n ==> Careful(states[i], events[i])
  }

  lemma CarefulAt(states: seq<Sched>, events: seq<Event>, n: nat, i: nat, s: Sched, e: Event)
    requires i < n <= |events| && |states| == |events| + 1 && CarefulTo(states, events, n)
         && s == states[i] && e == events[i]
    ensures Careful(s, e)
  {
  }

  /** In every run, with any unlocks, after careful events: the ready queue is the queued
      threads in priority order, and the cache is its head or the current thread, ready and
      not idle. */
  lemma {:induction false} CacheIsNear(states: seq<Sched>, events: seq<Event>, n: nat)
    requires IsRun(states, events) && Near(states[0]) && n < |states| && CarefulTo(states, events, n)
    ensures Near(states[n])
    decreases n
  {
    if n > 0 {
      var s, e, t := states[n - 1], events[n - 1], states[n];
      Taken(states, events, n - 1, s, e, t);
      CarefulAt(states, events, n, n - 1, s, e);
      CacheIsNear(states, events, n - 1);
      StepNear(s, e);
    }
  }

  /** An event that is not careful breaks the queue. */
  lemma CarelessBreaks(s: Sched, e: Event)
    requires QueueOk(s) && Possible(s, e) && !Careful(s, e)
    ensures !QueueOk(Step(s, e))
  {
    match e
    case Wake(t, blocked, timed) => WakeKeepsIff(s, t, blocked, timed);
    case SetPrio(t, prio) => SetPrioKeepsIff(s, t, prio);
  }

  lemma CarefulIfNear(states: seq<Sched>, events: seq<Event>, i: nat, s: Sched, e: Event, t: Sched)
    requires IsRun(states, events) && i < |events| && s == states[i] && e == events[i] && t == states[i + 1]
    requires Near(s) && Near(t)
    ensures Careful(s, e)
  {
    Taken(states, events, i, s, e, t);
    if !Careful(s, e) { CarelessBreaks(s, e); }
  }

  /** Over every run of anything the kernel can be asked to do: queue and cache are right
      throughout exactly if no event readies a queued thread or changes the priority of a
      thread that is ready and not queued. */
  lemma QueueRightIff(states: seq<Sched>, events: seq<Event>)
    requires IsRun(states, events) && Near(states[0])
    ensures (forall n :: 0 <= n < |states| ==> Near(states[n])) <==> CarefulTo(states, events, |events|)
  {
    if CarefulTo(states, events, |events|) {
      forall n | 0 <= n < |states| ensures Near(states[n]) { CacheIsNear(states, events, n); }
    }
    if forall n :: 0 <= n < |states| ==> Near(states[n]) {
      forall i {:trigger events[i]} | 0 <= i < |events| ensures Careful(states[i], events[i]) {
        CarefulIfNear(states, events, i, states[i], events[i], states[i + 1]);
      }
    }
  }

  /** A quiet unlock that does not keep the cache right. */
  ghost predicate Loose(s: Sched, e: Event) {
    e.QuietUnlock? && s.current in s.threads && s.threads[s.current].locked > 0 && !QuietOk(s)
  }

  /** Such an unlock is followed at once by the current thread pending itself. */
  ghost predicate ThenPends(states: seq<Sched>, events: seq<Event>, i: nat)
    requires i < |events| && |states| == |events| + 1
  {
    Loose(states[i], events[i]) ==>
      i + 1 < |events| && events[i + 1].Block? && events[i + 1].t == states[i + 1].current &&
      states[i + 1].current in states[i + 1].threads && Ready(states[i + 1].threads[states[i + 1].current])
  }

  ghost predicate Disciplined(states: seq<Sched>, events: seq<Event>) {
    && IsRun(states, events) && CarefulTo(states, events, |events|)
    && forall i {:trigger events[i]} :: 0 <= i < |events| ==> ThenPends(states, events, i)
  }

  /** The state between such an unlock and the pend, with interrupts locked. */
  ghost predicate Between(states: seq<Sched>, events: seq<Event>, n: nat)
    requires n < |states| == |events| + 1
  {
    n > 0 && Loose(states[n - 1], events[n - 1])
  }

  lemma DisciplinedStep(states: seq<Sched>, events: seq<Event>, n: nat, s: Sched, e: Event, t: Sched)
    requires Disciplined(states, events) && 0 < n < |states|
    requires s == states[n - 1] && e == events[n - 1] && t == states[n]
    requires Near(s) && (Between(states, events, n - 1) || Inv(s))
    ensures Between(states, events, n) || Inv(t)
  {
    Taken(states, events, n - 1, s, e, t);
    CarefulAt(states, events, |events|, n - 1, s, e);
    if Between(states, events, n - 1) {
      assert ThenPends(states, events, n - 2);
      PendRefreshes(s, e);
    } else if !Loose(s, e) {
      StepKeeps(s, e);
    }
  }

  /** Over every run of careful events in which each quiet unlock meets its condition or is followed at once by
      the current thread pending itself: outside such a pair the invariant holds, so
      whenever the current thread is preemptible, idle or not ready, the cache is the head
      of the ready queue, a ready thread that no queued thread outranks, and idle only if
      nothing is queued. */
  lemma {:induction false} CacheIsBest(states: seq<Sched>, events: seq<Event>, n: nat)
    requires Disciplined(states, events) && Inv(states[0]) && n < |states|
    ensures Between(states, events, n) || (Inv(states[n]) && HeadCached(states[n]))
    decreases n
  {
    if n > 0 {
      CacheIsBest(states, events, n - 1);
      DisciplinedNear(states, events, n - 1);
      DisciplinedStep(states, events, n, states[n - 1], events[n - 1], states[n]);
    }
    if !Between(states, events, n) { InvIsHead(states[n]); }
  }

  lemma DisciplinedNear(states: seq<Sched>, events: seq<Event>, n: nat)
    requires Disciplined(states, events) && Inv(states[0]) && n < |states|
    ensures Near(states[n])
  {
    forall i {:trigger events[i]} | 0 <= i < n ensures Careful(states[i], events[i]) {
      CarefulAt(states, events, |events|, i, states[i], events[i]);
    }
    CacheIsNear(states, events, n);
  }

  /** A current thread that pends itself refreshes the cache. */
  lemma PendRefreshes(s: Sched, e: Event)
    requires Near(s) && Enabled(s, e) && e.Block? && e.t == s.current && Ready(s.threads[s.current])
    ensures Inv(Step(s, e))
  {
    StepNear(s, e);
  }

  ghost predicate HeadCached(s: Sched) {
    && s.current in s.threads
    && var c := s.threads[s.current];
       ((c.prio >= 0 && c.locked == 0) || s.current == s.idle || c.blocked || c.timed ==>
          && s.cache == (if s.runq == [] then s.idle else s.runq[0].id)
          && s.cache in s.threads && !s.threads[s.cache].blocked && !s.threads[s.cache].timed
          && forall t :: t in s.threads && s.threads[t].queued ==>
               s.cache != s.idle && s.threads[s.cache].prio <= s.threads[t].prio)
  }

  lemma InvIsHead(s: Sched)
    requires Inv(s)
    ensures HeadCached(s)
  {
    BestOutranks(s);
  }

  lemma BestOutranks(s: Sched)
    requires QueueOk(s)
    ensures Best(s) in s.threads && Ready(s.threads[Best(s)])
    ensures forall t :: t in s.threads && s.threads[t].queued ==>
              Best(s) != s.idle && s.threads[Best(s)].prio <= s.threads[t].prio
  {
    assert s.runq != [] ==> s.runq[0] in s.runq;
    forall t | t in s.threads && s.threads[t].queued
      ensures Best(s) != s.idle && s.threads[Best(s)].prio <= s.threads[t].prio
    {
      var k :| 0 <= k < |s.runq| && s.runq[k] == Thread(t, s.threads[t].prio);
      assert k > 0 ==> Prio(s.runq[0]) <= Prio(s.runq[k]);
    }
  }

  /** A ready, non-preemptible, non-idle current thread. */
  ghost predicate Holds(s: Sched, t: nat) {
    && s.current == s.cache == t && t in s.threads && t != s.idle
    && !s.threads[t].blocked && !s.threads[t].timed && (s.threads[t].prio < 0 || s.threads[t].locked > 0)
  }

  /** No meta-IRQ is first on the queue. */
  predicate MetaFree(s: Sched) { s.runq != [] ==> s.metaTop <= s.runq[0].prio }

  predicate First(s: Sched, t: nat) { s.runq != [] && s.runq[0].id == t }

  /** Other threads becoming ready, blocking or being moved, scheduler locking, and context
      switches, with no meta-IRQ thread ever best; and other threads' priorities changing
      without a better ready thread resulting. */
  ghost predicate Outside(s: Sched, e: Event, t: nat) {
    && s.idle in s.threads && s.current in s.threads && Enabled(s, e)
    && match e
       case Wake(_, _, _) => MetaFree(Step(s, e))
       case Block(u, _, _) => u != t && MetaFree(Step(s, e))
       case Unpend(_, _, _) => true
       case MoveToEnd(_) => MetaFree(Step(s, e))
       case SetPrio(u, _) => u != t && (u in s.threads && Ready(s.threads[u]) ==> First(Step(s, e), t))
       case Yield => false
       case Lock => true
       case Unlock => false
       case QuietUnlock => false
       case Swap => true
  }

  lemma OutsideHolds(s: Sched, e: Event, t: nat)
    requires Near(s) && Holds(s, t) && Outside(s, e, t)
    ensures Holds(Step(s, e), t)
  {
    if e.SetPrio? {
      if Refreshes(s, e) { DisplacedWhenPermitted(s, e, t); }
    } else if Refreshes(s, e) {
      DisplacedOnlyByMetaIrq(s, e, t);
    }
  }

  /** Such a thread keeps the processor through any run of other threads' activity. */
  lemma {:induction false} CooperativeKeepsCpu(states: seq<Sched>, events: seq<Event>, t: nat, n: nat)
    requires IsRun(states, events) && Near(states[0]) && Holds(states[0], t) && n < |states|
    requires forall i {:trigger events[i]} :: 0 <= i < |events| ==> Outside(states[i], events[i], t)
    ensures Holds(states[n], t)
    decreases n
  {
    if n > 0 {
      var s, e, u := states[n - 1], events[n - 1], states[n];
      Taken(states, events, n - 1, s, e, u);
      assert Outside(s, e, t);
      CooperativeKeepsCpu(states, events, t, n - 1);
      forall i {:trigger events[i]} | 0 <= i < n - 1 ensures Careful(states[i], events[i]) {
        assert Outside(states[i], events[i], t);
      }
      CacheIsNear(states, events, n - 1);
      OutsideHolds(s, e, t);
    }
  }

  /** One event of another thread that refreshes the cache without permission to preempt
      displaces the thread exactly when the best thread is now another one and a
      meta-IRQ. */
  lemma DisplacedOnlyByMetaIrq(s: Sched, e: Event, t: nat)
    requires Near(s) && Holds(s, t) && Enabled(s, e) && Refreshes(s, e)
    requires e.Wake? || (e.Block? && e.t != t) || e.MoveToEnd?
    ensures var u := Step(s, e); u.runq != [] && (u.cache != t <==> u.runq[0].id != t && u.runq[0].prio < s.metaTop)
  {
    MoveQueue(s, e);
    KeepsRecord(s, e, t);
    KeptOrDisplaced(Step(s, e), t);
  }

  /** Such an event leaves the current thread's record alone and refreshes the cache without
      permission. */
  lemma KeepsRecord(s: Sched, e: Event, t: nat)
    requires QueueOk(s) && Holds(s, t) && Enabled(s, e) && Refreshes(s, e)
    requires e.Wake? || (e.Block? && e.t != t) || e.MoveToEnd?
    ensures var u := Step(s, e);
            && u.current == t && u.idle == s.idle && u.metaTop == s.metaTop && t in u.threads
            && u.threads[t] == s.threads[t] && u.threads[t].queued && u.idle in u.threads
            && u.cache == if ShouldPreempt(u, false) then Best(u) else t
  {
  }

  lemma KeptOrDisplaced(u: Sched, t: nat)
    requires QueueOk(u) && u.current == t != u.idle && u.threads[t].queued
    requires u.threads[t].prio < 0 || u.threads[t].locked > 0
    requires u.cache == if ShouldPreempt(u, false) then Best(u) else t
    ensures u.runq != [] && (u.cache != t <==> u.runq[0].id != t && u.runq[0].prio < u.metaTop)
  {
    assert Thread(t, u.threads[t].prio) in u.runq;
  }

  /** One that refreshes it with permission (another ready thread's priority set, or the
      thread's own unlock or yield) displaces it exactly when the best thread is another. */
  lemma DisplacedWhenPermitted(s: Sched, e: Event, t: nat)
    requires Near(s) && Holds(s, t) && Enabled(s, e) && Refreshes(s, e)
    requires e.SetPrio? || e.Unlock? || e.Yield?
    ensures var u := Step(s, e);
            u.runq != [] && u.cache == u.runq[0].id && (u.cache != t <==> u.runq[0].id != t)
  {
    StepQueue(s, e);
  }

  /** In terms of the queue before the call: changing the priority of another queued thread
      displaces the thread exactly when the new priority, or one already queued, is better
      than its own, or as good and queued in front of it. */
  lemma DisplacedBySetPrio(s: Sched, v: nat, prio: int, t: nat)
    requires Near(s) && Holds(s, t) && v in s.threads && v != s.idle && v != t && s.threads[v].queued
    ensures Step(s, SetPrio(v, prio)).cache != t <==>
              prio < s.threads[t].prio || Best(s.(runq := Without(s.runq, v))) != t
  {
    WithoutMembers(s.runq, v);
    WithoutDistinct(s.runq, v);
    WithoutSorted(s.runq, v);
    var q, x := Without(s.runq, v), Thread(v, prio);
    assert Thread(t, s.threads[t].prio) in q;
    assert q[0] in q;
    var k := Place(q, x, Prio, 0);
    assert Insert(q, x, Prio)[0] == if k == 0 then x else q[0];
    HeadPrio(q, Thread(t, s.threads[t].prio));
  }

  lemma HeadPrio(q: seq<Thread>, x: Thread)
    requires Sorted(q, Prio) && x in q
    ensures q[0].prio <= x.prio && (q[0].id == x.id && Distinct(q) ==> q[0] == x)
  {
    var k :| 0 <= k < |q| && q[k] == x;
    assert k > 0 ==> Prio(q[0]) <= Prio(q[k]);
  }

  // ---------- in place ----------

  class ReadyQ {
    var threads: map<nat, Info>
    var runq: seq<Thread>
    var current: nat
    var cache: nat
    const idle: nat
    const metaTop: int

    ghost function State(): Sched
      reads this
    {
      Sched(threads, runq, current, cache, idle, metaTop)
    }

    method Update(preemptOk: bool)
      requires current in threads && idle in threads
      modifies this`cache
      ensures State() == UpdateCache(old(State()), preemptOk)
    {
      var th := idle;
      var prio := threads[idle].prio;
      if |runq| > 0 {
        th, prio := runq[0].id, runq[0].prio;
      }
      if preemptOk || !Ready(threads[current]) || Preemptible(threads[current]) || prio < metaTop || current == idle {
        cache := th;
      } else {
        cache := current;
      }
    }

    /** The state bits are cleared, then `_ready_thread`, on any thread but idle: the queue
        stays right exactly when the thread was not queued. */
    method WakeThread(t: nat, blocked: bool, timed: bool)
      requires Near(State()) && t in threads && t != idle
      modifies this
      ensures State() == Step(old(State()), Wake(t, blocked, timed))
      ensures QueueOk(State()) <==> !old(threads[t].queued)
      ensures QueueOk(State()) ==> Near(State())
      ensures QueueOk(State()) && (old(Inv(State())) || (!blocked && !timed)) ==> Inv(State())
    {
      WakeKeepsIff(State(), t, blocked, timed);
      if !threads[t].queued { StepBoth(State(), Wake(t, blocked, timed)); }
      threads := threads[t := threads[t].(blocked := blocked, timed := timed)];
      if Ready(threads[t]) {
        var x := Thread(t, threads[t].prio);
        runq := PriorityList.Add(runq, x, Prio);
        threads := threads[t := threads[t].(queued := true)];
        assert State() == Enqueue(SetBits(old(State()), t, blocked, timed), t);
        Update(false);
      }
    }

    /** `_remove_thread_from_ready_q`, then the state bits are set. */
    method BlockThread(t: nat, blocked: bool, timed: bool)
      requires Near(State()) && Enabled(State(), Block(t, blocked, timed))
      modifies this
      ensures State() == Step(old(State()), Block(t, blocked, timed)) && Near(State())
      ensures old(Inv(State())) || old(threads[t].queued) ==> Inv(State())
    {
      StepBoth(State(), Block(t, blocked, timed));
      if threads[t].queued {
        runq := Without(runq, t);
        threads := threads[t := threads[t].(queued := false)];
        Update(t == current);
      }
      threads := threads[t := threads[t].(blocked := blocked, timed := timed)];
    }

    /** Unlink, rewrite the priority, link again, refresh the cache. */
    method Requeue(t: nat, prio: int, preemptOk: bool, mark: bool)
      requires t in threads && current in threads && idle in threads
      modifies this
      ensures State() == RequeueCall(old(State()), t, prio, preemptOk, mark)
    {
      runq := Without(runq, t);
      runq := PriorityList.Add(runq, Thread(t, prio), Prio);
      threads := threads[t := threads[t].(prio := prio, queued := threads[t].queued || mark)];
      Update(preemptOk);
    }

    /** `_thread_priority_set`, on any thread but idle: the queue stays right exactly when the
        thread is queued or not ready. */
    method SetPriority(t: nat, prio: int)
      requires Near(State()) && t in threads && t != idle
      modifies this
      ensures State() == SetPrioCall(old(State()), t, prio)
      ensures QueueOk(State()) <==> old(threads[t].queued || !Ready(threads[t]))
      ensures old(Inv(State())) && QueueOk(State()) ==> Inv(State())
    {
      SetPrioKeepsIff(State(), t, prio);
      if Enabled(State(), SetPrio(t, prio)) { StepBoth(State(), SetPrio(t, prio)); }
      if Ready(threads[t]) {
        Requeue(t, prio, true, false);
      } else {
        threads := threads[t := threads[t].(prio := prio)];
      }
    }

    method MoveThreadToEnd(t: nat)
      requires Near(State()) && Enabled(State(), MoveToEnd(t))
      modifies this
      ensures State() == Step(old(State()), MoveToEnd(t)) && Inv(State())
    {
      StepBoth(State(), MoveToEnd(t));
      Requeue(t, threads[t].prio, false, true);
    }

    method YieldCurrent()
      requires Near(State()) && Enabled(State(), Yield)
      modifies this
      ensures State() == Step(old(State()), Yield) && Near(State())
      ensures current != idle || old(Inv(State())) ==> Inv(State())
    {
      StepBoth(State(), Yield);
      if current != idle {
        Requeue(current, threads[current].prio, true, true);
      }
    }

    method SetDepth(depth: nat)
      requires current in threads
      modifies this`threads
      ensures State() == SetLock(old(State()), depth)
    {
      threads := threads[current := threads[current].(locked := depth)];
    }

    /** `_sched_lock`. */
    method SchedLock()
      requires Near(State())
      modifies this
      ensures State() == Step(old(State()), Lock) && Near(State()) && (old(Inv(State())) ==> Inv(State()))
    {
      StepBoth(State(), Lock);
      SetDepth(threads[current].locked + 1);
    }

    /** The state bits of a thread off the queue change, and nothing else. */
    method UnpendThread(t: nat, blocked: bool, timed: bool)
      requires Near(State()) && Enabled(State(), Unpend(t, blocked, timed))
      modifies this
      ensures State() == Step(old(State()), Unpend(t, blocked, timed)) && Near(State())
      ensures old(Inv(State())) ==> Inv(State())
    {
      StepBoth(State(), Unpend(t, blocked, timed));
      threads := threads[t := threads[t].(blocked := blocked, timed := timed)];
    }

    /** The context switch to the cached thread, which is ready. */
    method SwapIn()
      requires Near(State())
      modifies this
      ensures State() == Step(old(State()), Swap) && Near(State()) && Ready(threads[current])
      ensures old(Inv(State())) ==> Inv(State())
    {
      StepBoth(State(), Swap);
      BestOutranks(State());
      current := cache;
    }

    /** `k_sched_unlock`: the cache is right afterwards whatever it was. */
    method SchedUnlock()
      requires Near(State()) && Enabled(State(), Unlock)
      modifies this
      ensures State() == Step(old(State()), Unlock) && Inv(State())
    {
      StepBoth(State(), Unlock);
      SetDepth(threads[current].locked - 1);
      Update(true);
    }

    /** `_sched_unlock_no_reschedule`: the cache is right afterwards exactly under its
        condition. */
    method SchedUnlockQuietly()
      requires Near(State()) && Enabled(State(), QuietUnlock)
      modifies this
      ensures State() == Step(old(State()), QuietUnlock) && Near(State())
      ensures Inv(State()) <==> old(QuietOk(State()))
    {
      QuietUnlockKeepsIff(State());
      StepBoth(State(), QuietUnlock);
      SetDepth(threads[current].locked - 1);
    }
  }
}
