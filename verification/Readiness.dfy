/** What each scheduler operation does to the threads and the ready queue, and when a thread
    is on the queue. */
module Readiness {
  import opened PriorityList
  import opened ReadyQueues
  import opened Scheduler

  // ---------- single operations ----------

  /** `x` joins the ready queue behind every thread it does not outrank. */
  ghost predicate Enters(q: seq<Thread>, r: seq<Thread>, x: Thread) { Joins(q, r, x, (y: Thread) => y.prio) }

  /** `x` leaves the ready queue. */
  ghost predicate Leaves(q: seq<Thread>, r: seq<Thread>, x: Thread) { exists k :: LeavesAt(q, r, x, k) }

  ghost predicate LeavesAt(q: seq<Thread>, r: seq<Thread>, x: Thread, k: int) {
    0 <= k < |q| && q[k] == x && r == q[..k] + q[k + 1..]
  }

  /** `x` leaves and `y` joins. */
  ghost predicate Passes(q: seq<Thread>, r: seq<Thread>, x: Thread, y: Thread) {
    exists p :: Leaves(q, p, x) && Enters(p, r, y)
  }

  /** Only the record of `t`, the queue and the cache differ. */
  ghost predicate OnlyOf(s: Sched, u: Sched, t: nat) {
    && t in s.threads && t in u.threads
    && u == s.(threads := s.threads[t := u.threads[t]], runq := u.runq, cache := u.cache)
  }

  lemma {:induction false} WithoutLeaves(q: seq<Thread>, x: Thread, k: nat)
    requires Distinct(q) && k < |q| && q[k] == x
    ensures Without(q, x.id) == q[..k] + q[k + 1..]
  {
    if k > 0 {
      WithoutLeaves(q[1..], x, k - 1);
      assert q[..k] == [q[0]] + q[1..][..k - 1];
    }
  }

  lemma QueuedLeaves(s: Sched, t: nat)
    requires QueueOk(s) && t in s.threads && s.threads[t].queued
    ensures Leaves(s.runq, Without(s.runq, t), Thread(t, s.threads[t].prio))
  {
    var x := Thread(t, s.threads[t].prio);
    var k :| 0 <= k < |s.runq| && s.runq[k] == x;
    WithoutLeaves(s.runq, x, k);
    assert LeavesAt(s.runq, Without(s.runq, t), x, k);
  }

  lemma {:induction false} WithoutNobody(q: seq<Thread>, t: nat)
    requires forall i :: 0 <= i < |q| ==> q[i].id != t
    ensures Without(q, t) == q
  {
    if q != [] { WithoutNobody(q[1..], t); }
  }

  lemma UnqueuedStays(s: Sched, t: nat)
    requires QueueOk(s) && t in s.threads && !s.threads[t].queued
    ensures Without(s.runq, t) == s.runq
  {
    forall i | 0 <= i < |s.runq| ensures s.runq[i].id != t { assert s.runq[i] in s.runq; }
    WithoutNobody(s.runq, t);
  }

  lemma InsertEnters(q: seq<Thread>, x: Thread)
    ensures Enters(q, Insert(q, x, Prio), x)
  {
    InsertJoins(q, x, Prio, (y: Thread) => y.prio);
  }

  /** Readying a thread clears its bits and links it into the queue, marked as queued; with a
      bit left set only the bits change. */
  lemma WakeEffect(s: Sched, t: nat, blocked: bool, timed: bool, u: Sched)
    requires Follows(s, Wake(t, blocked, timed), u)
    ensures var i := s.threads[t];
            && OnlyOf(s, u, t)
            && (if blocked || timed then
                  u.threads[t] == i.(blocked := blocked, timed := timed) && u.runq == s.runq && u.cache == s.cache
                else
                  && u.threads[t] == i.(blocked := false, timed := false, queued := true)
                  && Enters(s.runq, u.runq, Thread(t, i.prio)))
  {
    InsertEnters(s.runq, Thread(t, s.threads[t].prio));
  }

  /** Blocking a thread sets its bits and takes it, and nobody else, off the queue. */
  lemma BlockEffect(s: Sched, t: nat, blocked: bool, timed: bool, u: Sched)
    requires QueueOk(s) && Follows(s, Block(t, blocked, timed), u)
    ensures var i := s.threads[t];
            && OnlyOf(s, u, t) && u.threads[t] == i.(blocked := blocked, timed := timed, queued := false)
            && (if i.queued then Leaves(s.runq, u.runq, Thread(t, i.prio)) else u.runq == s.runq && u.cache == s.cache)
  {
    if s.threads[t].queued { QueuedLeaves(s, t); }
  }

  /** A ready thread is linked in anew, at `prio`, behind its equals. */
  ghost predicate Relinks(s: Sched, u: Sched, t: nat, prio: int) {
    && t in s.threads
    && var x, y := Thread(t, s.threads[t].prio), Thread(t, prio);
       if s.threads[t].queued then Passes(s.runq, u.runq, x, y) else Enters(s.runq, u.runq, y)
  }

  lemma RequeueEffect(s: Sched, t: nat, prio: int, preemptOk: bool, mark: bool)
    requires QueueOk(s) && t in s.threads
    ensures Relinks(s, RequeueCall(s, t, prio, preemptOk, mark), t, prio)
  {
    var p := Without(s.runq, t);
    InsertEnters(p, Thread(t, prio));
    if s.threads[t].queued { QueuedLeaves(s, t); } else { UnqueuedStays(s, t); }
  }

  /** Setting a priority: a ready thread is also linked in anew at it; a pended one only has
      its priority changed. */
  lemma SetPrioEffect(s: Sched, t: nat, prio: int, u: Sched)
    requires QueueOk(s) && Follows(s, SetPrio(t, prio), u)
    ensures var i := s.threads[t];
            && OnlyOf(s, u, t) && u.threads[t] == i.(prio := prio)
            && (if i.blocked || i.timed then u.runq == s.runq && u.cache == s.cache else Relinks(s, u, t, prio))
  {
    RequeueEffect(s, t, prio, true, false);
  }

  /** Moving a ready thread to the end: it is queued, behind its equals. */
  lemma MoveToEndEffect(s: Sched, t: nat, u: Sched)
    requires QueueOk(s) && Follows(s, MoveToEnd(t), u)
    ensures var i := s.threads[t];
            OnlyOf(s, u, t) && u.threads[t] == i.(queued := true) && Relinks(s, u, t, i.prio)
  {
    RequeueEffect(s, t, s.threads[t].prio, false, true);
  }

  /** Yielding does that to the current thread; for idle nothing happens. */
  lemma YieldEffect(s: Sched, u: Sched)
    requires QueueOk(s) && Follows(s, Yield, u)
    ensures var i := s.threads[s.current];
            if s.current == s.idle then u == s
            else OnlyOf(s, u, s.current) && u.threads[s.current] == i && Relinks(s, u, s.current, i.prio)
  {
    RequeueEffect(s, s.current, s.threads[s.current].prio, true, true);
  }

  /** The remaining operations leave the queue alone. */
  lemma QuietEffect(s: Sched, e: Event, u: Sched)
    requires Follows(s, e, u) && (e.Unpend? || e.Lock? || e.Unlock? || e.QuietUnlock? || e.Swap?)
    ensures var i := s.threads[s.current];
            match e
            case Unpend(t, blocked, timed) =>
              u == s.(threads := s.threads[t := s.threads[t].(blocked := blocked, timed := timed)])
            case Lock => u == s.(threads := s.threads[s.current := i.(locked := i.locked + 1)])
            case Unlock =>
              0 < i.locked && u == s.(threads := s.threads[s.current := i.(locked := i.locked - 1)], cache := u.cache)
            case QuietUnlock => 0 < i.locked && u == s.(threads := s.threads[s.current := i.(locked := i.locked - 1)])
            case Swap => u == s.(current := s.cache)
            case _ => false
  {
  }

  // ---------- who is on the queue ----------

  /** Whether `t`, queued at first or not, was since readied or moved, and not blocked after
      that. */
  ghost predicate Up(queued: bool, events: seq<Event>, t: nat) {
    if events == [] then queued
    else
      var past := Up(queued, events[..|events| - 1], t);
      match events[|events| - 1]
      case Wake(x, blocked, timed) => past || (x == t && !blocked && !timed)
      case Block(x, _, _) => past && x != t
      case MoveToEnd(x) => past || x == t
      case _ => past
  }

  lemma StepUp(s: Sched, e: Event, u: Sched, t: nat)
    requires Near(s) && Enabled(s, e) && Follows(s, e, u)
    ensures t in s.threads ==> t in u.threads
    ensures t in s.threads ==> (u.threads[t].queued <==>
              match e
              case Wake(x, blocked, timed) => s.threads[t].queued || (x == t && !blocked && !timed)
              case Block(x, _, _) => s.threads[t].queued && x != t
              case MoveToEnd(x) => s.threads[t].queued || x == t
              case _ => s.threads[t].queued)
  {
    match e
    case Wake(x, blocked, timed) => WakeEffect(s, x, blocked, timed, u);
    case Block(x, blocked, timed) => BlockEffect(s, x, blocked, timed, u);
    case MoveToEnd(x) => MoveToEndEffect(s, x, u);
    case SetPrio(x, prio) => SetPrioEffect(s, x, prio, u);
    case Yield => YieldEffect(s, u);
    case _ => QuietEffect(s, e, u);
  }

  /** In every run of careful events a thread is on the ready queue, at its priority, exactly
      if it was there at first or was since readied or moved, and was not blocked after
      that. */
  lemma {:induction false} QueuedIff(states: seq<Sched>, events: seq<Event>, n: nat, t: nat)
    requires IsRun(states, events) && Near(states[0]) && n < |states| && CarefulTo(states, events, n)
    requires t in states[0].threads
    ensures t in states[n].threads
    ensures var s := states[n];
            && (s.threads[t].queued <==> Up(states[0].threads[t].queued, events[..n], t))
            && (s.threads[t].queued <==> Thread(t, s.threads[t].prio) in s.runq)
    decreases n
  {
    CacheIsNear(states, events, n);
    if n > 0 {
      var s, e, u := states[n - 1], events[n - 1], states[n];
      Taken(states, events, n - 1, s, e, u);
      CarefulBefore(states, events, n);
      CarefulAt(states, events, n, n - 1, s, e);
      assert events[..n][..n - 1] == events[..n - 1];
      CacheIsNear(states, events, n - 1);
      StepUp(s, e, u, t);
      QueuedIff(states, events, n - 1, t);
    }
  }

  lemma CarefulBefore(states: seq<Sched>, events: seq<Event>, n: nat)
    requires 0 < n <= |events| && |states| == |events| + 1 && CarefulTo(states, events, n)
    ensures CarefulTo(states, events, n - 1)
  {
  }

  lemma {:induction false} StaysUp(queued: bool, events: seq<Event>, i: nat, t: nat)
    requires i < |events| && events[i] == Wake(t, false, false)
    requires forall j :: i < j < |events| ==> !(events[j].Block? && events[j].t == t)
    ensures Up(queued, events, t)
    decreases |events|
  {
    var k := |events| - 1;
    if i < k { StaysUp(queued, events[..k], i, t); }
  }

  /** A thread that was readied and not blocked since is on the ready queue. */
  lemma ReadiedIsQueued(states: seq<Sched>, events: seq<Event>, n: nat, i: nat, t: nat)
    requires IsRun(states, events) && Near(states[0]) && n < |states| && CarefulTo(states, events, n)
    requires t in states[0].threads && i < n && events[i] == Wake(t, false, false)
    requires forall j :: i < j < n ==> !(events[j].Block? && events[j].t == t)
    ensures t in states[n].threads && Thread(t, states[n].threads[t].prio) in states[n].runq
  {
    QueuedIff(states, events, n, t);
    StaysUp(states[0].threads[t].queued, events[..n], i, t);
  }
}
