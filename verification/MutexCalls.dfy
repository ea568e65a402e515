/** What each mutex call does, and who owns the mutex for how long. */
module MutexCalls {
  import opened Basics
  import opened PriorityList
  import opened Counting
  import opened Mutex

  /** `t` joins the wait queue behind every thread it does not outrank. */
  ghost predicate QueuesUp(q: seq<nat>, r: seq<nat>, t: nat, prios: Prios) {
    Joins(q, r, t, (x: nat) => if x in prios then prios[x] else 0)
  }

  /** A free mutex, or one's own, is taken, once more; another's is refused or waited for, as
      asked, and only waiting touches anything: the queue, and the owner's priority, which
      becomes the caller's, limited by the ceiling, if that is higher. */
  lemma LockOutcome(m: State, prios: Prios, cur: nat, noWait: bool, ceiling: int)
    requires WellFormed(m, prios) && cur in prios
    ensures var (m', prios', r) := LockCall(m, prios, cur, noWait, ceiling);
            match m.owner
            case None => m' == State(Some(cur), 1, prios[cur], []) && prios' == prios && r == Acquired
            case Some(o) =>
              if o == cur then m' == m.(count := m.count + 1) && prios' == prios && r == Acquired
              else if noWait then m' == m && prios' == prios && r == Busy
              else
                && r == Pended && m' == m.(waiters := m'.waiters) && QueuesUp(m.waiters, m'.waiters, cur, prios')
                && prios' == prios[o := Min(prios[o], Max(prios[cur], ceiling))]
  {
    if m.owner.Some? && m.owner != Some(cur) && !noWait {
      var prios' := LockCall(m, prios, cur, noWait, ceiling).1;
      InsertJoins(m.waiters, cur, By(prios'), (x: nat) => if x in prios' then prios'[x] else 0);
    }
  }

  /** An inner unlock only counts down.  The last one gives the owner back the priority it
      had when it took the mutex, and passes the mutex to the first waiter, or frees it. */
  lemma UnlockOutcome(m: State, prios: Prios)
    requires WellFormed(m, prios) && m.owner.Some?
    ensures var (m', prios') := UnlockCall(m, prios);
            if m.count > 1 then m' == m.(count := m.count - 1) && prios' == prios
            else
              && prios' == prios[m.owner.value := m.orig]
              && (if m.waiters == [] then m'.owner == None && m'.count == 0 && m'.waiters == []
                  else
                    && m.waiters[0] in prios
                    && m' == State(Some(m.waiters[0]), 1, prios[m.waiters[0]], m.waiters[1..]))
  {
    if m.waiters != [] { assert m.waiters[0] in m.waiters; }
  }

  /** A waiter that times out leaves the queue; the owner's priority becomes its own, or the
      first remaining waiter's if that is higher, limited by the ceiling. */
  lemma TimeOutOutcome(m: State, prios: Prios, i: nat, ceiling: int)
    requires WellFormed(m, prios) && i < |m.waiters|
    ensures var (m', prios') := TimeOut(m, prios, i, ceiling);
            var ws := m.waiters[..i] + m.waiters[i + 1..];
            && m' == m.(waiters := ws)
            && (if ws == [] then prios' == prios[m.owner.value := m.orig]
                else
                  ws[0] in prios && prios' == prios[m.owner.value := Max(Min(m.orig, prios[ws[0]]), ceiling)])
  {
    var ws := m.waiters[..i] + m.waiters[i + 1..];
    if ws != [] { assert ws[0] in m.waiters; }
  }

  // ---------- owning ----------

  function LocksOf(t: nat): Event -> bool { (e: Event) => e.LockBy? && e.tid == t }

  function UnlocksOf(t: nat): Event -> bool { (e: Event) => e.UnlockBy? && e.tid == t }

  /** The locks less the unlocks by `t` among `events`. */
  function Net(events: seq<Event>, t: nat): int { Count(events, LocksOf(t)) - Count(events, UnlocksOf(t)) }

  lemma NetPush(events: seq<Event>, i: nat, n: nat, t: nat)
    requires i <= n < |events|
    ensures Net(events[i..n + 1], t) == Net(events[i..n], t) + One(LocksOf(t)(events[n])) - One(UnlocksOf(t)(events[n]))
  {
    assert events[i..n + 1] == events[i..n] + [events[n]];
    CountPush(events[i..n], events[n], LocksOf(t));
    CountPush(events[i..n], events[n], UnlocksOf(t));
  }

  /** The owner of state `n` took the mutex at state `i` and has kept it since. */
  ghost predicate OwnedSince(states: seq<Moment>, i: nat, n: nat, o: nat) {
    && 0 < i <= n < |states| && states[i - 1].m.owner != Some(o)
    && forall j :: i <= j <= n ==> states[j].m.owner == Some(o)
  }

  /** What one event does to owner and count. */
  lemma FollowsCount(s: Moment, e: Event, t: Moment, ceiling: int)
    requires Follows(s, e, t, ceiling)
    ensures WellFormed(t.m, t.prios)
    ensures match s.m.owner
            case None => t.m.owner.Some? && t.m.count == 1
            case Some(o) =>
              if e == UnlockBy(o) && s.m.count == 1 then t.m.owner != Some(o) && (t.m.owner.Some? ==> t.m.count == 1)
              else t.m.owner == Some(o) && t.m.count == s.m.count + One(LocksOf(o)(e)) - One(UnlocksOf(o)(e))
  {
    StepEffect(s.m, s.prios, e, ceiling);
    match e
    case LockBy(tid, noWait) => LockOutcome(s.m, s.prios, tid, noWait, ceiling);
    case UnlockBy(_) =>
      UnlockOutcome(s.m, s.prios);
      assert s.m.waiters != [] ==> s.m.waiters[0] in s.m.waiters;
    case WaiterTimesOut(i) => TimeOutOutcome(s.m, s.prios, i, ceiling);
  }

  /** It has since locked the mutex as often more than it unlocked it as the count says. */
  ghost predicate Deep(states: seq<Moment>, events: seq<Event>, i: nat, n: nat, o: nat) {
    OwnedSince(states, i, n, o) && n <= |events| && states[n].m.count == 1 + Net(events[i..n], o)
  }

  lemma Taken(states: seq<Moment>, events: seq<Event>, ceiling: int, i: nat, s: Moment, e: Event, t: Moment)
    requires IsRun(states, events, ceiling) && i < |events| && s == states[i] && e == events[i] && t == states[i + 1]
    ensures Follows(s, e, t, ceiling)
  {
  }

  lemma DeepOn(states: seq<Moment>, events: seq<Event>, i: nat, n: nat, o: nat)
    requires Deep(states, events, i, n, o) && n < |events| && n + 1 < |states| && states[n + 1].m.owner == Some(o)
    requires states[n + 1].m.count == states[n].m.count + One(LocksOf(o)(events[n])) - One(UnlocksOf(o)(events[n]))
    ensures Deep(states, events, i, n + 1, o)
  {
    NetPush(events, i, n, o);
  }

  lemma {:induction false} CountIsDepth(states: seq<Moment>, events: seq<Event>, own: Prios, ceiling: int, n: nat)
      returns (i: nat)
    requires IsRun(states, events, ceiling) && n < |states| && states[0] == Moment(Free, own, false)
    ensures states[n].m.owner.Some? ==> Deep(states, events, i, n, states[n].m.owner.value)
    decreases n
  {
    i := n;
    if n > 0 {
      var s, e, t := states[n - 1], events[n - 1], states[n];
      Taken(states, events, ceiling, n - 1, s, e, t);
      FollowsCount(s, e, t, ceiling);
      var k := CountIsDepth(states, events, own, ceiling, n - 1);
      if t.m.owner.Some? && t.m.owner == s.m.owner {
        i := k;
        DeepOn(states, events, k, n - 1, t.m.owner.value);
      }
    }
  }

  /** Over every run on one mutex: its count is one more than the owner's locks less its
      unlocks since it took it, and it passes on exactly at the unlock that matches. */
  lemma OwnedTillMatched(states: seq<Moment>, events: seq<Event>, own: Prios, ceiling: int, n: nat) returns (i: nat)
    requires IsRun(states, events, ceiling) && n < |events| && states[0] == Moment(Free, own, false)
    ensures states[n].m.owner.Some? ==>
              var o := states[n].m.owner.value;
              && OwnedSince(states, i, n, o) && states[n].m.count == 1 + Net(events[i..n], o)
              && (states[n + 1].m.owner != Some(o) <==> events[n] == UnlockBy(o) && Net(events[i..n], o) == 0)
  {
    i := CountIsDepth(states, events, own, ceiling, n);
    Taken(states, events, ceiling, n, states[n], events[n], states[n + 1]);
    FollowsCount(states[n], events[n], states[n + 1], ceiling);
  }
}
