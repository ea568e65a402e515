/** Mutexes with priority inheritance.

    A smaller number is a higher priority.  `lock` and `unlock` run with the scheduler
    locked and are taken as atomic, as is a waiter's timeout together with the owner's
    priority adjustment it triggers. */
module Mutex {
  import opened Basics
  import opened PriorityList

  datatype Result = Acquired | Busy | Pended

  /** Thread priorities. */
  type Prios = map<nat, int>

  /** `struct k_mutex`. */
  datatype State = State(owner: Option<nat>, count: nat, orig: int, waiters: seq<nat>)

  function By(prios: Prios): nat -> int { t => if t in prios then prios[t] else 0 }

  /** `new_prio_for_inheritance`: the higher of two priorities, kept under the ceiling. */
  function Inherit(target: int, limit: int, ceiling: int): int {
    Max(if target < limit then target else limit, ceiling)
  }

  /** The thread and queue bookkeeping every call relies on. */
  ghost predicate WellFormed(m: State, prios: Prios) {
    && (m.owner == None <==> m.count == 0) && (m.owner == None ==> m.waiters == [])
    && (m.owner.Some? ==> m.owner.value in prios && m.owner.value !in m.waiters)
    && (forall t :: t in m.waiters ==> t in prios)
    && NoRepeats(m.waiters)
  }

  /** `_impl_k_mutex_lock` up to its return or pend. */
  function LockCall(m: State, prios: Prios, cur: nat, noWait: bool, ceiling: int): (State, Prios, Result)
    requires cur in prios && (m.owner.Some? ==> m.owner.value in prios) && (m.owner == None ==> m.count == 0)
  {
    if m.count == 0 || m.owner == Some(cur) then
      (State(Some(cur), m.count + 1, if m.count == 0 then prios[cur] else m.orig, m.waiters), prios, Acquired)
    else if noWait then (m, prios, Busy)
    else
      var o := m.owner.value;
      var boosted := Inherit(prios[cur], prios[o], ceiling);
      var prios' := if boosted < prios[o] then prios[o := boosted] else prios;
      (m.(waiters := Insert(m.waiters, cur, By(prios'))), prios', Pended)
  }

  /** `_impl_k_mutex_unlock` by the owner. */
  function UnlockCall(m: State, prios: Prios): (State, Prios)
    requires m.owner.Some? && m.count > 0 && m.owner.value in prios && forall t :: t in m.waiters ==> t in prios
  {
    if m.count > 1 then (m.(count := m.count - 1), prios)
    else
      var prios' := prios[m.owner.value := m.orig];
      if m.waiters == [] then (State(None, 0, m.orig, []), prios')
      else (State(Some(m.waiters[0]), 1, prios'[m.waiters[0]], m.waiters[1..]), prios')
  }

  /** Waiter number `i` times out and readjusts the owner. */
  function TimeOut(m: State, prios: Prios, i: nat, ceiling: int): (State, Prios)
    requires m.owner.Some? && i < |m.waiters| && forall t :: t in m.waiters ==> t in prios
  {
    var ws := RemoveAt(m.waiters, i);
    assert ws != [] ==> ws[0] in m.waiters;
    (m.(waiters := ws),
     prios[m.owner.value := if ws == [] then m.orig else Inherit(prios[ws[0]], m.orig, ceiling)])
  }

  // ---------- one mutex: the owner inherits ----------

  /** What the owner's priority must be: its own, or the first waiter's (limited by the
      ceiling) if that is higher. */
  function Due(m: State, prios: Prios, ceiling: int): int
    requires m.waiters != [] ==> m.waiters[0] in prios
  {
    if m.waiters == [] then m.orig else Min(m.orig, Max(prios[m.waiters[0]], ceiling))
  }

  ghost predicate Inv(m: State, prios: Prios, ceiling: int) {
    && WellFormed(m, prios) && Sorted(m.waiters, By(prios))
    && (m.owner.Some? ==>
          && (m.waiters != [] ==> m.waiters[0] in prios)
          && prios[m.owner.value] == Due(m, prios, ceiling))
  }

  lemma SortedFrame(q: seq<nat>, prios: Prios, o: nat, p: int)
    requires Sorted(q, By(prios)) && o !in q
    ensures Sorted(q, By(prios[o := p]))
  {
    forall i, j | 0 <= i < j < |q| ensures By(prios[o := p])(q[i]) <= By(prios[o := p])(q[j]) {
      assert By(prios)(q[i]) <= By(prios)(q[j]);
    }
  }

  lemma InsertHead(q: seq<nat>, x: nat, prios: Prios)
    requires x in prios && forall t :: t in q ==> t in prios
    ensures var r := Insert(q, x, By(prios));
            r[0] in prios && prios[r[0]] == if q == [] then prios[x] else Min(prios[x], prios[q[0]])
  {
    var k := Place(q, x, By(prios), 0);
    assert q != [] ==> q[0] in q;
    assert k > 0 ==> By(prios)(q[0]) <= By(prios)(x);
  }

  lemma PendKeeps(m: State, prios: Prios, o: nat, p: int, cur: nat, ceiling: int)
    requires Inv(m, prios, ceiling) && m.owner == Some(o) && cur in prios && cur !in m.waiters && cur != o
    requires p == Min(prios[o], Inherit(prios[cur], prios[o], ceiling))
    ensures Inv(m.(waiters := Insert(m.waiters, cur, By(prios[o := p]))), prios[o := p], ceiling)
  {
    var q, prios' := m.waiters, prios[o := p];
    SortedFrame(q, prios, o, p);
    InsertKeepsSorted(q, cur, By(prios'));
    InsertMembers(q, cur, By(prios'));
    InsertNoRepeats(q, cur, By(prios'));
    InsertHead(q, cur, prios');
    assert q != [] ==> q[0] in q;
  }

  lemma LockKeeps(m: State, prios: Prios, cur: nat, noWait: bool, ceiling: int)
    requires Inv(m, prios, ceiling) && cur in prios && cur !in m.waiters
    ensures var (m', prios', r) := LockCall(m, prios, cur, noWait, ceiling); Inv(m', prios', ceiling)
  {
    if !(m.count == 0 || m.owner == Some(cur)) && !noWait {
      var o := m.owner.value;
      var p := Min(prios[o], Inherit(prios[cur], prios[o], ceiling));
      PendKeeps(m, prios, o, p, cur, ceiling);
      assert prios[o] == p ==> prios[o := p] == prios;
    }
  }

  /** A release restores the owner and leaves the next owner with the priority due to it,
      whatever the owner ran at. */
  lemma UnlockKeeps(m: State, prios: Prios, ceiling: int)
    requires WellFormed(m, prios) && Sorted(m.waiters, By(prios)) && m.owner.Some?
    requires m.count > 1 ==> Inv(m, prios, ceiling)
    ensures var (m', prios') := UnlockCall(m, prios); Inv(m', prios', ceiling)
  {
    var (m', prios') := UnlockCall(m, prios);
    if m.count == 1 && m.waiters != [] {
      var q, o := m.waiters, m.owner.value;
      SortedFrame(q, prios, o, m.orig);
      assert q[0] in q;
      if |q| > 1 { assert By(prios')(q[0]) <= By(prios')(q[1]) && q[1] in q; }
    }
  }

  /** The timeout path drops an owner whose own priority is above the ceiling to the
      ceiling while others still wait; otherwise it restores the invariant. */
  lemma TimeOutKeepsIff(m: State, prios: Prios, i: nat, ceiling: int)
    requires WellFormed(m, prios) && Sorted(m.waiters, By(prios)) && i < |m.waiters|
    ensures var (m', prios') := TimeOut(m, prios, i, ceiling);
            && WellFormed(m', prios') && Sorted(m'.waiters, By(prios'))
            && (Inv(m', prios', ceiling) <==> |m.waiters| == 1 || ceiling <= m.orig)
            && (|m.waiters| > 1 && m.orig < ceiling ==> m.orig < prios'[m.owner.value] == ceiling)
  {
    var (m', prios') := TimeOut(m, prios, i, ceiling);
    var o := m.owner.value;
    RemoveKeepsSorted(m.waiters, i, By(prios));
    RemoveNoRepeats(m.waiters, i);
    SortedFrame(m'.waiters, prios, o, prios'[o]);
  }

  /** An owner above the ceiling (a cooperative thread under ceiling 0, say) with two
      waiters, the second of which times out, goes on at the ceiling. */
  lemma TimeOutDropsOwner(prios: Prios, o: nat, w: nat, x: nat, ceiling: int)
    requires o in prios && w in prios && x in prios && o != w && w != x && x != o
    requires prios[o] < ceiling && prios[w] <= prios[x]
    ensures var (a, p, _) := LockCall(Free, prios, o, false, ceiling);
            var (b, q, _) := LockCall(a, p, w, false, ceiling);
            x in q && b.owner == Some(o) && o in q &&
            var (c, r, _) := LockCall(b, q, x, false, ceiling);
            c.waiters == [w, x] && w in r && x in r && r[o] == prios[o] &&
            var (d, t) := TimeOut(c, r, 1, ceiling);
            d == State(Some(o), 1, prios[o], [w]) && o in t && t[o] == ceiling && !Inv(d, t, ceiling)
  {
    var (a, p, _) := LockCall(Free, prios, o, false, ceiling);
    var (b, q, _) := LockCall(a, p, w, false, ceiling);
    assert b == State(Some(o), 1, prios[o], [w]) && q == prios by { assert Insert([], w, By(prios)) == [w]; }
    assert Place([w], x, By(prios), 0) == 1;
    assert Insert([w], x, By(prios)) == [w, x];
    assert RemoveAt([w, x], 1) == [w];
  }

  const Free := State(None, 0, 0, [])

  datatype Event = LockBy(tid: nat, noWait: bool) | UnlockBy(tid: nat) | WaiterTimesOut(i: nat)

  /** A waiting thread makes no calls; only the owner unlocks. */
  predicate Enabled(m: State, prios: Prios, e: Event) {
    match e
    case LockBy(tid, _) => tid in prios && tid !in m.waiters
    case UnlockBy(tid) => m.owner == Some(tid)
    case WaiterTimesOut(i) => i < |m.waiters|
  }

  ghost function Step(m: State, prios: Prios, e: Event, ceiling: int): (State, Prios)
    requires WellFormed(m, prios) && Enabled(m, prios, e)
  {
    match e
    case LockBy(tid, noWait) => var (m', prios', r) := LockCall(m, prios, tid, noWait, ceiling); (m', prios')
    case UnlockBy(_) => UnlockCall(m, prios)
    case WaiterTimesOut(i) => TimeOut(m, prios, i, ceiling)
  }

  /** What the owner runs at; `dropped` says that the last waiter to time out since the
      owner took the mutex left others waiting. */
  function Level(m: State, prios: Prios, ceiling: int, dropped: bool): int
    requires m.waiters != [] ==> m.waiters[0] in prios
  {
    if dropped && m.orig < ceiling then ceiling else Due(m, prios, ceiling)
  }

  ghost predicate Ranked(m: State, prios: Prios, ceiling: int, dropped: bool) {
    && WellFormed(m, prios) && Sorted(m.waiters, By(prios))
    && (m.owner.Some? ==>
          && (m.waiters != [] ==> m.waiters[0] in prios)
          && prios[m.owner.value] == Level(m, prios, ceiling, dropped))
  }

  function DroppedBy(m: State, e: Event, m': State, dropped: bool): bool {
    if e.WaiterTimesOut? then |m.waiters| > 1 else m'.owner == m.owner && dropped
  }

  lemma LockRanked(m: State, prios: Prios, cur: nat, noWait: bool, ceiling: int, dropped: bool)
    requires Ranked(m, prios, ceiling, dropped) && cur in prios && cur !in m.waiters
    ensures var (m', prios', r) := LockCall(m, prios, cur, noWait, ceiling);
            Ranked(m', prios', ceiling, m'.owner == m.owner && dropped)
  {
    if dropped && m.orig < ceiling && m.owner.Some? {
      if m.owner != Some(cur) && !noWait {
        InsertKeepsSorted(m.waiters, cur, By(prios));
        InsertMembers(m.waiters, cur, By(prios));
        InsertNoRepeats(m.waiters, cur, By(prios));
        InsertHead(m.waiters, cur, prios);
      }
    } else {
      LockKeeps(m, prios, cur, noWait, ceiling);
    }
  }

  lemma UnlockRanked(m: State, prios: Prios, ceiling: int, dropped: bool)
    requires Ranked(m, prios, ceiling, dropped) && m.owner.Some?
    ensures var (m', prios') := UnlockCall(m, prios);
            Ranked(m', prios', ceiling, m'.owner == m.owner && dropped)
  {
    if m.count == 1 {
      UnlockKeeps(m, prios, ceiling);
      assert m.waiters != [] ==> m.waiters[0] in m.waiters;
    }
  }

  lemma TimeOutRanked(m: State, prios: Prios, i: nat, ceiling: int)
    requires WellFormed(m, prios) && Sorted(m.waiters, By(prios)) && i < |m.waiters|
    ensures var (m', prios') := TimeOut(m, prios, i, ceiling); Ranked(m', prios', ceiling, |m.waiters| > 1)
  {
    TimeOutKeepsIff(m, prios, i, ceiling);
    var m' := TimeOut(m, prios, i, ceiling).0;
    assert m'.waiters != [] ==> m'.waiters[0] in m'.waiters;
  }

  /** Priorities of threads that do not own the mutex are their own, and the owner's own is
      remembered in the mutex. */
  ghost predicate Own(m: State, prios: Prios, own: Prios) {
    && prios.Keys == own.Keys
    && (forall t :: t in own && m.owner != Some(t) ==> prios[t] == own[t])
    && (m.owner.Some? ==> m.owner.value in own && m.orig == own[m.owner.value])
  }

  lemma StepOwn(m: State, prios: Prios, e: Event, own: Prios, ceiling: int)
    requires WellFormed(m, prios) && Own(m, prios, own) && Enabled(m, prios, e)
    ensures var (m', prios') := Step(m, prios, e, ceiling); Own(m', prios', own)
  {
    if e.UnlockBy? { assert m.waiters != [] ==> m.waiters[0] in m.waiters; }
  }

  /** One mutex in time. */
  datatype Moment = Moment(m: State, prios: Prios, dropped: bool)

  ghost predicate Follows(s: Moment, e: Event, t: Moment, ceiling: int) {
    && WellFormed(s.m, s.prios) && Enabled(s.m, s.prios, e)
    && (t.m, t.prios) == Step(s.m, s.prios, e, ceiling) && t.dropped == DroppedBy(s.m, e, t.m, s.dropped)
  }

  lemma FollowsRanked(s: Moment, e: Event, t: Moment, own: Prios, ceiling: int)
    requires Follows(s, e, t, ceiling) && Ranked(s.m, s.prios, ceiling, s.dropped) && Own(s.m, s.prios, own)
    ensures Ranked(t.m, t.prios, ceiling, t.dropped) && Own(t.m, t.prios, own)
  {
    StepOwn(s.m, s.prios, e, own, ceiling);
    match e
    case LockBy(tid, noWait) => LockRanked(s.m, s.prios, tid, noWait, ceiling, s.dropped);
    case UnlockBy(_) => UnlockRanked(s.m, s.prios, ceiling, s.dropped);
    case WaiterTimesOut(i) => TimeOutRanked(s.m, s.prios, i, ceiling);
  }

  ghost predicate IsRun(states: seq<Moment>, events: seq<Event>, ceiling: int) {
    && |states| == |events| + 1
    && forall i {:trigger events[i]} :: 0 <= i < |events| ==> Follows(states[i], events[i], states[i + 1], ceiling)
  }

  /** Over every run on one mutex, whatever the threads' priorities and the ceiling: the
      owner runs at the higher of its own priority and the first waiter's, the latter
      limited by the ceiling; except that an owner whose own priority is above the ceiling
      runs at the ceiling while the last timeout left others waiting.  Nobody else's
      priority is touched, and the wait queue is in priority order. */
  lemma {:induction false} OwnerInherits(states: seq<Moment>, events: seq<Event>, own: Prios, ceiling: int, n: nat)
    requires IsRun(states, events, ceiling) && n < |states| && states[0] == Moment(Free, own, false)
    ensures var s := states[n];
            && Ranked(s.m, s.prios, ceiling, s.dropped) && Own(s.m, s.prios, own)
            && (s.m.owner.Some? ==>
                  var o := own[s.m.owner.value];
                  s.prios[s.m.owner.value] ==
                  if s.dropped && o < ceiling then ceiling
                  else if s.m.waiters == [] then o else Min(o, Max(own[s.m.waiters[0]], ceiling)))
    decreases n
  {
    if n > 0 {
      var s, e, t := states[n - 1], events[n - 1], states[n];
      assert Follows(s, e, t, ceiling);
      OwnerInherits(states, events, own, ceiling, n - 1);
      FollowsRanked(s, e, t, own, ceiling);
    }
    var m := states[n].m;
    assert m.waiters != [] ==> m.waiters[0] in m.waiters;
  }

  // ---------- many mutexes: what is restored ----------

  /** `held[t]` lists what `t` owns, oldest first.  `at[k]` is the priority the owner of `k`
      ran at when it took `k`, and `last[t]` the one `t` had taken at its latest release. */
  datatype System = System(prios: Prios, mutexes: map<nat, State>, held: map<nat, seq<nat>>,
                           at: map<nat, int>, last: Prios)

  datatype SystemEvent = On(mid: nat, event: Event)

  predicate Holds(held: map<nat, seq<nat>>, t: nat, k: nat) { t in held && k in held[t] }

  predicate Owns(mutexes: map<nat, State>, t: nat, k: nat) { k in mutexes && mutexes[k].owner == Some(t) }

  /** The ownership lists say what the mutexes say. */
  ghost predicate Matches(held: map<nat, seq<nat>>, mutexes: map<nat, State>) {
    && (forall t, k :: Holds(held, t, k) <==> Owns(mutexes, t, k))
    && (forall t :: t in held ==> NoRepeats(held[t]))
  }

  ghost predicate SystemWellFormed(s: System) {
    && s.held.Keys == s.prios.Keys && Matches(s.held, s.mutexes)
    && forall k :: k in s.mutexes ==> WellFormed(s.mutexes[k], s.prios)
  }

  predicate SystemEnabled(s: System, e: SystemEvent) {
    e.mid in s.mutexes && Enabled(s.mutexes[e.mid], s.prios, e.event)
  }

  function Drop(q: seq<nat>, k: nat): seq<nat> {
    if q == [] then [] else if q[0] == k then q[1..] else [q[0]] + Drop(q[1..], k)
  }

  /** The ownership lists after `a` let go of `k`. */
  function Released(held: map<nat, seq<nat>>, a: Option<nat>, k: nat): map<nat, seq<nat>> {
    if a.Some? && a.value in held then held[a.value := Drop(held[a.value], k)] else held
  }

  function Gained(held: map<nat, seq<nat>>, b: Option<nat>, k: nat): map<nat, seq<nat>> {
    if b.Some? && b.value in held then held[b.value := held[b.value] + [k]] else held
  }

  function Handover(held: map<nat, seq<nat>>, k: nat, a: Option<nat>, b: Option<nat>): map<nat, seq<nat>> {
    if a == b then held else Gained(Released(held, a, k), b, k)
  }

  /** Both histories are kept from the running priorities, not from what mutexes store. */
  function TakenAt(at: map<nat, int>, k: nat, a: Option<nat>, b: Option<nat>, prios: Prios): map<nat, int> {
    if a != b && b.Some? && b.value in prios then at[k := prios[b.value]] else at
  }

  function LastAt(last: Prios, at: map<nat, int>, k: nat, a: Option<nat>, b: Option<nat>): Prios {
    if a != b && a.Some? && k in at then last[a.value := at[k]] else last
  }

  ghost function SystemStep(s: System, e: SystemEvent, ceiling: int): System
    requires SystemWellFormed(s) && SystemEnabled(s, e)
  {
    var m := s.mutexes[e.mid];
    var (m', prios') := Step(m, s.prios, e.event, ceiling);
    System(prios', s.mutexes[e.mid := m'], Handover(s.held, e.mid, m.owner, m'.owner),
           TakenAt(s.at, e.mid, m.owner, m'.owner, s.prios), LastAt(s.last, s.at, e.mid, m.owner, m'.owner))
  }

  /** Every mutex stores what its owner ran at when it took it, and a thread that holds
      nothing runs at what it ran at when it took the mutex it released last. */
  ghost predicate Tracked(s: System) {
    && (forall k :: k in s.mutexes && s.mutexes[k].owner.Some? ==> k in s.at && s.mutexes[k].orig == s.at[k])
    && (forall t :: t in s.held && t in s.prios && s.held[t] == [] ==> t in s.last && s.prios[t] == s.last[t])
  }

  /** What one call can do to priorities and ownership. */
  ghost predicate Effect(m: State, prios: Prios, e: Event, m': State, prios': Prios) {
    && WellFormed(m', prios') && prios'.Keys == prios.Keys
    && (m'.owner == m.owner ==>
          m.owner.Some? && m'.orig == m.orig && prios' == prios[m.owner.value := prios'[m.owner.value]])
    && (m'.owner != m.owner && m.owner == None ==>
          m'.owner.Some? && prios' == prios && m'.orig == prios[m'.owner.value])
    && (m'.owner != m.owner && m.owner.Some? ==>
          && e == UnlockBy(m.owner.value) && m.count == 1 && prios' == prios[m.owner.value := m.orig]
          && (m'.owner.Some? ==> m'.orig == prios[m'.owner.value]))
  }

  lemma LockEffect(m: State, prios: Prios, tid: nat, noWait: bool, ceiling: int)
    requires WellFormed(m, prios) && Enabled(m, prios, LockBy(tid, noWait))
    ensures var (m', prios', r) := LockCall(m, prios, tid, noWait, ceiling);
            Effect(m, prios, LockBy(tid, noWait), m', prios')
  {
    if !(m.count == 0 || m.owner == Some(tid)) && !noWait {
      var (m', prios', r) := LockCall(m, prios, tid, noWait, ceiling);
      assert prios' == prios[m.owner.value := prios'[m.owner.value]];
      InsertMembers(m.waiters, tid, By(prios'));
      InsertNoRepeats(m.waiters, tid, By(prios'));
    }
  }

  lemma UnlockEffect(m: State, prios: Prios)
    requires WellFormed(m, prios) && m.owner.Some?
    ensures var (m', prios') := UnlockCall(m, prios); Effect(m, prios, UnlockBy(m.owner.value), m', prios')
  {
    assert m.waiters != [] ==> m.waiters[0] in m.waiters;
  }

  lemma TimeOutEffect(m: State, prios: Prios, i: nat, ceiling: int)
    requires WellFormed(m, prios) && i < |m.waiters|
    ensures var (m', prios') := TimeOut(m, prios, i, ceiling); Effect(m, prios, WaiterTimesOut(i), m', prios')
  {
    RemoveNoRepeats(m.waiters, i);
  }

  lemma StepEffect(m: State, prios: Prios, e: Event, ceiling: int)
    requires WellFormed(m, prios) && Enabled(m, prios, e)
    ensures var (m', prios') := Step(m, prios, e, ceiling); Effect(m, prios, e, m', prios')
  {
    match e
    case LockBy(tid, noWait) => LockEffect(m, prios, tid, noWait, ceiling);
    case UnlockBy(_) => UnlockEffect(m, prios);
    case WaiterTimesOut(i) => TimeOutEffect(m, prios, i, ceiling);
  }

  lemma {:induction false} DropMembers(q: seq<nat>, k: nat)
    requires NoRepeats(q)
    ensures NoRepeats(Drop(q, k)) && forall x :: x in Drop(q, k) <==> x in q && x != k
  {
    if q != [] {
      assert NoRepeats(q[1..]);
      assert forall x :: x in q <==> x == q[0] || x in q[1..];
      assert q[0] !in q[1..];
      DropMembers(q[1..], k);
    }
  }

  lemma {:induction false} DropLast(q: seq<nat>, k: nat)
    requires NoRepeats(q) && q != [] && q[|q| - 1] == k
    ensures Drop(q, k) == q[..|q| - 1]
  {
    if |q| > 1 {
      assert q[0] != k;
      assert NoRepeats(q[1..]);
      DropLast(q[1..], k);
    }
  }

  lemma MatchesSame(held: map<nat, seq<nat>>, ms: map<nat, State>, k: nat, m: State)
    requires Matches(held, ms) && k in ms && m.owner == ms[k].owner
    ensures Matches(held, ms[k := m])
  {
    forall t, j ensures Holds(held, t, j) <==> Owns(ms[k := m], t, j) {
      assert Holds(held, t, j) <==> Owns(ms, t, j);
    }
  }

  lemma MatchesGained(held: map<nat, seq<nat>>, ms: map<nat, State>, k: nat, m: State)
    requires Matches(held, ms) && k in ms && ms[k].owner == None && m.owner.Some? && m.owner.value in held
    ensures Matches(Gained(held, m.owner, k), ms[k := m])
  {
    var h, b := Gained(held, m.owner, k), m.owner.value;
    assert !Holds(held, b, k) by { assert !Owns(ms, b, k); }
    forall t, j ensures Holds(h, t, j) <==> Owns(ms[k := m], t, j) {
      assert Holds(held, t, j) <==> Owns(ms, t, j);
      assert Holds(h, t, j) <==> Holds(held, t, j) || (t == b && j == k);
    }
  }

  lemma MatchesReleased(held: map<nat, seq<nat>>, ms: map<nat, State>, k: nat, m: State)
    requires Matches(held, ms) && k in ms && ms[k].owner.Some? && m.owner == None
    ensures Matches(Released(held, ms[k].owner, k), ms[k := m])
  {
    var h, a := Released(held, ms[k].owner, k), ms[k].owner.value;
    assert Holds(held, a, k) by { assert Owns(ms, a, k); }
    DropMembers(held[a], k);
    forall t, j ensures Holds(h, t, j) <==> Owns(ms[k := m], t, j) {
      assert Holds(held, t, j) <==> Owns(ms, t, j);
      assert Holds(h, t, j) <==> Holds(held, t, j) && !(t == a && j == k);
    }
  }

  lemma MatchesPassed(held: map<nat, seq<nat>>, ms: map<nat, State>, k: nat, m: State)
    requires Matches(held, ms) && k in ms && ms[k].owner.Some? && m.owner != ms[k].owner
    requires m.owner.Some? ==> m.owner.value in held
    ensures Matches(Handover(held, k, ms[k].owner, m.owner), ms[k := m])
  {
    MatchesReleased(held, ms, k, Free);
    if m.owner.Some? {
      MatchesGained(Released(held, ms[k].owner, k), ms[k := Free], k, m);
      assert ms[k := Free][k := m] == ms[k := m];
    } else {
      MatchesReleased(held, ms, k, m);
    }
  }

  lemma SystemFormed(s: System, e: SystemEvent, ceiling: int)
    requires SystemWellFormed(s) && SystemEnabled(s, e)
    ensures SystemWellFormed(SystemStep(s, e, ceiling))
  {
    var m, k := s.mutexes[e.mid], e.mid;
    var (m', prios') := Step(m, s.prios, e.event, ceiling);
    StepEffect(m, s.prios, e.event, ceiling);
    if m'.owner == m.owner {
      MatchesSame(s.held, s.mutexes, k, m');
    } else if m.owner == None {
      MatchesGained(s.held, s.mutexes, k, m');
    } else {
      MatchesPassed(s.held, s.mutexes, k, m');
    }
  }

  /** An owner's list is not empty. */
  lemma OwnerHolds(s: System, k: nat)
    requires SystemWellFormed(s) && k in s.mutexes && s.mutexes[k].owner.Some?
    ensures Holds(s.held, s.mutexes[k].owner.value, k)
  {
    assert Owns(s.mutexes, s.mutexes[k].owner.value, k);
  }

  lemma SystemTracked(s: System, e: SystemEvent, ceiling: int)
    requires SystemWellFormed(s) && SystemEnabled(s, e) && Tracked(s)
    ensures Tracked(SystemStep(s, e, ceiling))
  {
    var m, k := s.mutexes[e.mid], e.mid;
    StepEffect(m, s.prios, e.event, ceiling);
    if m.owner.Some? { OwnerHolds(s, k); }
  }

  ghost predicate SystemFollows(s: System, e: SystemEvent, t: System, ceiling: int) {
    SystemWellFormed(s) && SystemEnabled(s, e) && t == SystemStep(s, e, ceiling)
  }

  ghost predicate IsSystemRun(states: seq<System>, events: seq<SystemEvent>, ceiling: int) {
    && |states| == |events| + 1
    && forall i {:trigger events[i]} :: 0 <= i < |events| ==>
         SystemFollows(states[i], events[i], states[i + 1], ceiling)
  }

  /** Threads at their own priorities, holding nothing. */
  ghost predicate Fresh(s: System, own: Prios) {
    SystemWellFormed(s) && s.prios == own && s.last == own && forall t :: t in s.held ==> s.held[t] == []
  }

  lemma FreshTracked(s: System, own: Prios)
    requires Fresh(s, own)
    ensures Tracked(s)
  {
    forall k | k in s.mutexes ensures s.mutexes[k].owner == None {
      if s.mutexes[k].owner.Some? { OwnerHolds(s, k); }
    }
  }

  /** Over every run on any number of mutexes, released in any order: a thread that holds
      none runs at the priority it had when it took the mutex it released last, so it is
      back at its own exactly if it took that mutex at its own. */
  lemma {:induction false} LastReleaseDecides(states: seq<System>, events: seq<SystemEvent>, own: Prios, ceiling: int,
                                              n: nat)
    requires IsSystemRun(states, events, ceiling) && n < |states| && Fresh(states[0], own)
    ensures var s := states[n];
            && SystemWellFormed(s) && Tracked(s)
            && forall t :: t in own && t in s.held && t in s.prios && s.held[t] == [] ==>
                 t in s.last && s.prios[t] == s.last[t] && (s.prios[t] == own[t] <==> s.last[t] == own[t])
    decreases n
  {
    if n == 0 {
      FreshTracked(states[0], own);
    } else {
      var s, e, t := states[n - 1], events[n - 1], states[n];
      assert SystemFollows(s, e, t, ceiling);
      LastReleaseDecides(states, events, own, ceiling, n - 1);
      SystemFormed(s, e, ceiling);
      SystemTracked(s, e, ceiling);
    }
  }

  // ---------- releasing in reverse order ----------

  /** A last unlock is of the mutex its owner took last. */
  ghost predicate InReverse(s: System, e: SystemEvent) {
    e.mid in s.mutexes && e.event.UnlockBy? && s.mutexes[e.mid].count == 1 && e.event.tid in s.held ==>
      var h := s.held[e.event.tid]; h != [] && h[|h| - 1] == e.mid
  }

  /** A thread that holds nothing runs at its own priority; otherwise the oldest mutex it
      holds was taken at it. */
  ghost predicate Remembered(s: System, own: Prios) {
    s.prios.Keys == own.Keys && forall t :: t in s.held ==> RememberedAt(s, own, t)
  }

  ghost predicate RememberedAt(s: System, own: Prios, t: nat)
    requires t in s.held
  {
    t in own && t in s.prios ==>
      if s.held[t] == [] then s.prios[t] == own[t]
      else s.held[t][0] in s.mutexes && s.mutexes[s.held[t][0]].orig == own[t]
  }

  /** Another thread's oldest mutex is another one. */
  lemma OldestOwned(s: System, u: nat)
    requires SystemWellFormed(s) && u in s.held && s.held[u] != []
    ensures s.held[u][0] in s.mutexes && s.mutexes[s.held[u][0]].owner == Some(u)
  {
    assert Holds(s.held, u, s.held[u][0]);
    assert Owns(s.mutexes, u, s.held[u][0]);
  }

  /** The owner keeps what it holds. */
  lemma RememberedSame(s: System, t: System, k: nat, own: Prios)
    requires SystemWellFormed(s) && Remembered(s, own) && k in s.mutexes && s.mutexes[k].owner.Some?
    requires t.held == s.held && k in t.mutexes && t.mutexes == s.mutexes[k := t.mutexes[k]]
    requires t.mutexes[k].orig == s.mutexes[k].orig && s.mutexes[k].owner.value in t.prios
    requires t.prios == s.prios[s.mutexes[k].owner.value := t.prios[s.mutexes[k].owner.value]]
    ensures Remembered(t, own)
  {
    OwnerHolds(s, k);
  }

  lemma RememberedGained(s: System, t: System, k: nat, own: Prios)
    requires SystemWellFormed(s) && Remembered(s, own) && k in s.mutexes && s.mutexes[k].owner == None
    requires k in t.mutexes && t.mutexes == s.mutexes[k := t.mutexes[k]] && t.prios == s.prios
    requires var b := t.mutexes[k].owner;
             b.Some? && b.value in s.prios && t.mutexes[k].orig == s.prios[b.value] && t.held == Gained(s.held, b, k)
    ensures Remembered(t, own)
  {
    forall u | u in s.held && s.held[u] != [] ensures s.held[u][0] != k {
      OldestOwned(s, u);
    }
  }

  /** `a` lets go of `k`, which it took last. */
  ghost predicate LetsGo(s: System, t: System, k: nat, a: nat)
    requires k in s.mutexes
  {
    && s.mutexes[k].owner == Some(a) && a in s.held && s.held[a] != [] && s.held[a][|s.held[a]| - 1] == k
    && t.prios == s.prios[a := s.mutexes[k].orig] && t.held == Released(s.held, Some(a), k)
    && k in t.mutexes && t.mutexes == s.mutexes[k := t.mutexes[k]] && t.mutexes[k].owner == None
  }

  lemma ReleasedAt(s: System, t: System, k: nat, a: nat, own: Prios, u: nat)
    requires SystemWellFormed(s) && k in s.mutexes && LetsGo(s, t, k, a) && u in s.held && RememberedAt(s, own, u)
    ensures RememberedAt(t, own, u)
  {
    DropLast(s.held[a], k);
    if s.held[u] != [] { OldestOwned(s, u); }
    if u == a && |s.held[a]| > 1 { assert s.held[a][0] != s.held[a][|s.held[a]| - 1]; }
  }

  lemma RememberedReleased(s: System, t: System, k: nat, a: nat, own: Prios)
    requires SystemWellFormed(s) && Remembered(s, own) && k in s.mutexes && LetsGo(s, t, k, a)
    ensures Remembered(t, own)
  {
    forall u | u in t.held ensures RememberedAt(t, own, u) {
      ReleasedAt(s, t, k, a, own, u);
    }
  }

  /** The state halfway through a hand-over: `a` has let go and nobody owns `k`. */
  function Halfway(s: System, t: System, k: nat, a: nat): System {
    t.(mutexes := s.mutexes[k := Free], held := Released(s.held, Some(a), k))
  }

  lemma RememberedHanded(s: System, t: System, k: nat, a: nat, b: nat, own: Prios)
    requires SystemWellFormed(s) && Remembered(s, own) && k in s.mutexes && LetsGo(s, Halfway(s, t, k, a), k, a)
    requires k in t.mutexes && t.mutexes == s.mutexes[k := t.mutexes[k]] && t.mutexes[k].owner == Some(b)
    requires a != b && b in s.prios && t.mutexes[k].orig == s.prios[b]
         && t.held == Gained(Released(s.held, Some(a), k), Some(b), k)
    ensures Remembered(t, own)
  {
    var u := Halfway(s, t, k, a);
    RememberedReleased(s, u, k, a, own);
    FreedFormed(s, u, k);
    assert u.mutexes[k := t.mutexes[k]] == t.mutexes;
    RememberedGained(u, t, k, own);
  }

  lemma FreedFormed(s: System, u: System, k: nat)
    requires SystemWellFormed(s) && k in s.mutexes && s.mutexes[k].owner.Some? && u.prios.Keys == s.prios.Keys
    requires u.mutexes == s.mutexes[k := Free] && u.held == Released(s.held, s.mutexes[k].owner, k)
    ensures SystemWellFormed(u)
  {
    MatchesReleased(s.held, s.mutexes, k, Free);
    OwnerHolds(s, k);
  }

  lemma SystemRemembered(s: System, e: SystemEvent, own: Prios, ceiling: int)
    requires SystemWellFormed(s) && SystemEnabled(s, e) && InReverse(s, e) && Remembered(s, own)
    ensures Remembered(SystemStep(s, e, ceiling), own)
  {
    var m, k, t := s.mutexes[e.mid], e.mid, SystemStep(s, e, ceiling);
    StepEffect(m, s.prios, e.event, ceiling);
    if m.owner.Some? { OwnerHolds(s, k); }
    if t.mutexes[k].owner == m.owner {
      RememberedSame(s, t, k, own);
    } else if m.owner == None {
      RememberedGained(s, t, k, own);
    } else if t.mutexes[k].owner == None {
      RememberedReleased(s, t, k, m.owner.value, own);
    } else {
      RememberedHanded(s, t, k, m.owner.value, t.mutexes[k].owner.value, own);
    }
  }

  ghost predicate Nested(states: seq<System>, events: seq<SystemEvent>, ceiling: int) {
    && IsSystemRun(states, events, ceiling)
    && forall i {:trigger events[i]} :: 0 <= i < |events| ==> InReverse(states[i], events[i])
  }

  lemma NestedStep(states: seq<System>, events: seq<SystemEvent>, ceiling: int, i: nat, s: System, e: SystemEvent,
                   t: System)
    requires Nested(states, events, ceiling) && i < |events| && s == states[i] && e == events[i] && t == states[i + 1]
    ensures SystemFollows(s, e, t, ceiling) && InReverse(s, e)
  {
  }

  /** Over every run in which each thread releases in reverse order, a thread that holds
      none has the priority it had before its first lock. */
  lemma {:induction false} NestingRestores(states: seq<System>, events: seq<SystemEvent>, own: Prios, ceiling: int,
                                           n: nat)
    requires Nested(states, events, ceiling) && n < |states| && Fresh(states[0], own)
    ensures SystemWellFormed(states[n]) && Remembered(states[n], own)
    ensures forall t :: t in own && t in states[n].held && states[n].held[t] == [] ==>
              t in states[n].prios && states[n].prios[t] == own[t]
    decreases n
  {
    if n > 0 {
      var s, e, t := states[n - 1], events[n - 1], states[n];
      NestedStep(states, events, ceiling, n - 1, s, e, t);
      NestingRestores(states, events, own, ceiling, n - 1);
      SystemFormed(s, e, ceiling);
      SystemRemembered(s, e, own, ceiling);
    }
  }

  /** A schedule that does not restore: `t` is boosted through one mutex, takes a second,
      releases the first, then the second, and is left at the waiter's priority. */
  lemma OutOfOrderKeepsBoost(prios: Prios, t: nat, w: nat, ceiling: int)
    requires t in prios && w in prios && ceiling <= prios[w] < prios[t]
    ensures var (a, p, _) := LockCall(Free, prios, t, false, ceiling);
            var (a', p', _) := LockCall(a, p, w, false, ceiling);
            var (b, q, _) := LockCall(Free, p', t, false, ceiling);
            a'.waiters == [w] && w in q && var (_, q') := UnlockCall(a', q);
            t in q' && var (_, r) := UnlockCall(b, q'); t in r && r[t] == prios[w] != prios[t]
  {
  }

  // ---------- in place ----------

  class ThreadTable {
    var prio: Prios

    /** `_thread_priority_set` as `adjust_owner_prio` calls it. */
    method Adjust(t: nat, p: int)
      requires t in prio
      modifies this
      ensures prio == old(prio)[t := p]
    {
      if prio[t] != p {
        prio := prio[t := p];
      }
    }
  }

  class KMutex {
    var owner: Option<nat>
    var lockCount: nat
    var ownerOrigPrio: int
    var waitQ: seq<nat>

    ghost function Value(): State
      reads this
    {
      State(owner, lockCount, ownerOrigPrio, waitQ)
    }

    /** `_impl_k_mutex_init`. */
    constructor ()
      ensures Value() == Free
    {
      owner, lockCount, ownerOrigPrio, waitQ := None, 0, 0, [];
    }

    /** `_impl_k_mutex_lock`; `dropped` says that the last timeout since the owner took the
        mutex left others waiting. */
    method Lock(threads: ThreadTable, cur: nat, noWait: bool, ceiling: int, ghost dropped: bool) returns (r: Result)
      requires Ranked(Value(), threads.prio, ceiling, dropped) && cur in threads.prio && cur !in waitQ
      modifies this, threads
      ensures (Value(), threads.prio, r) == LockCall(old(Value()), old(threads.prio), cur, noWait, ceiling)
      ensures Ranked(Value(), threads.prio, ceiling, owner == old(owner) && dropped)
    {
      LockRanked(Value(), threads.prio, cur, noWait, ceiling, dropped);
      if lockCount == 0 || owner == Some(cur) {
        ownerOrigPrio := if lockCount == 0 then threads.prio[cur] else ownerOrigPrio;
        lockCount := lockCount + 1;
        owner := Some(cur);
        return Acquired;
      }
      if noWait {
        return Busy;
      }
      var boosted := Inherit(threads.prio[cur], threads.prio[owner.value], ceiling);
      if boosted < threads.prio[owner.value] {
        threads.Adjust(owner.value, boosted);
      }
      waitQ := PriorityList.Add(waitQ, cur, By(threads.prio));
      r := Pended;
    }

    /** `_impl_k_mutex_unlock`. */
    method Unlock(threads: ThreadTable, ghost ceiling: int, ghost dropped: bool)
      requires Ranked(Value(), threads.prio, ceiling, dropped) && owner.Some?
      modifies this, threads
      ensures (Value(), threads.prio) == UnlockCall(old(Value()), old(threads.prio))
      ensures Ranked(Value(), threads.prio, ceiling, owner == old(owner) && dropped)
      ensures owner != old(owner) ==> Inv(Value(), threads.prio, ceiling)
    {
      UnlockRanked(Value(), threads.prio, ceiling, dropped);
      if lockCount == 1 { UnlockKeeps(Value(), threads.prio, ceiling); }
      lockCount := lockCount - 1;
      if lockCount != 0 {
        return;
      }
      threads.Adjust(owner.value, ownerOrigPrio);
      if |waitQ| == 0 {
        owner := None;
      } else {
        assert waitQ[0] in waitQ;
        owner := Some(waitQ[0]);
        waitQ := waitQ[1..];
        lockCount := lockCount + 1;
        ownerOrigPrio := threads.prio[owner.value];
      }
    }

    /** The timeout path of `_impl_k_mutex_lock`. */
    method WaiterTimesOut(threads: ThreadTable, i: nat, ceiling: int)
      requires WellFormed(Value(), threads.prio) && Sorted(waitQ, By(threads.prio)) && i < |waitQ|
      modifies this, threads
      ensures Ranked(Value(), threads.prio, ceiling, |old(waitQ)| > 1)
      ensures (Value(), threads.prio) == TimeOut(old(Value()), old(threads.prio), i, ceiling)
      ensures Inv(Value(), threads.prio, ceiling) <==> |old(waitQ)| == 1 || ceiling <= ownerOrigPrio
    {
      TimeOutKeepsIff(Value(), threads.prio, i, ceiling);
      TimeOutRanked(Value(), threads.prio, i, ceiling);
      waitQ := RemoveAt(waitQ, i);
      var p := ownerOrigPrio;
      if |waitQ| > 0 {
        assert waitQ[0] in old(waitQ);
        p := Inherit(threads.prio[waitQ[0]], p, ceiling);
      }
      assert (Value(), threads.prio[owner.value := p]) == TimeOut(old(Value()), old(threads.prio), i, ceiling);
      threads.Adjust(owner.value, p);
    }
  }
}
