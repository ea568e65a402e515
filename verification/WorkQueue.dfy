/** Delayed work: countdowns, work queues and their worker threads. */
module WorkQueue {
  import opened Basics
  import opened PriorityList
  import opened Counting

  datatype Code = Ok | Eaddrinuse | Einval

  /** `struct k_delayed_work`: the attached queue, whether its timeout is active, the
      pending bit; and its history: how often it became pending, its handler ran, and a
      cancel took it out while pending. */
  datatype Item = Item(workQ: Option<nat>, counting: bool, pending: bool, became: nat, ran: nat, cancelled: nat)

  /** A worker between calls, pended in `k_queue_get`, or holding an item it has got. */
  datatype Worker = Idle | Waiting | Holding(w: nat)

  /** A work queue: its list and its worker thread. */
  datatype Queue = Queue(list: seq<nat>, worker: Worker)

  datatype System = System(items: map<nat, Item>, queues: map<nat, Queue>)

  /** `k_queue_append`: a pended worker is handed the item, else it joins the list. */
  function Append(q: Queue, w: nat): Queue {
    if q.worker == Waiting then q.(worker := Holding(w)) else q.(list := q.list + [w])
  }

  /** `k_work_submit_to_queue`. */
  function SubmitWork(s: System, q: nat, w: nat): System
    requires w in s.items && q in s.queues
  {
    var it := s.items[w];
    if it.pending then s
    else System(s.items[w := it.(pending := true, became := it.became + 1)], s.queues[q := Append(s.queues[q], w)])
  }

  function IndexOf(q: seq<nat>, w: nat, i: nat): (k: nat)
    requires i <= |q|
    ensures i <= k <= |q| && (k < |q| ==> q[k] == w) && forall j :: i <= j < k ==> q[j] != w
    decreases |q| - i
  {
    if i == |q| || q[i] == w then i else IndexOf(q, w, i + 1)
  }

  /** `k_delayed_work_cancel`. */
  function Cancel(s: System, w: nat): (System, Code)
    requires w in s.items && (s.items[w].workQ.Some? ==> s.items[w].workQ.value in s.queues)
  {
    var it := s.items[w];
    if it.workQ == None then (s, Einval)
    else if it.pending then
      var q := s.queues[it.workQ.value];
      var k := IndexOf(q.list, w, 0);
      if k == |q.list| then (s, Einval)
      else
        (System(s.items[w := it.(workQ := None, pending := false, cancelled := it.cancelled + 1)],
                s.queues[it.workQ.value := q.(list := RemoveAt(q.list, k))]), Ok)
    else (s.(items := s.items[w := it.(workQ := None, counting := false)]), Ok)
  }

  /** `k_delayed_work_submit_to_queue`; `now` is a delay of 0. */
  function Submit(s: System, q: nat, w: nat, now: bool): (System, Code)
    requires w in s.items && q in s.queues && (s.items[w].workQ.Some? ==> s.items[w].workQ.value in s.queues)
  {
    var it := s.items[w];
    if it.workQ.Some? && it.workQ != Some(q) then (s, Eaddrinuse)
    else
      var (t, code) := if it.workQ == Some(q) then Cancel(s, w) else (s, Ok);
      if code != Ok then (t, code)
      else
        var u := t.(items := t.items[w := t.items[w].(workQ := Some(q))]);
        if now then (SubmitWork(u, q, w), Ok)
        else (u.(items := u.items[w := u.items[w].(counting := true)]), Ok)
  }

  /** The countdown of `w` ends: `work_timeout`. */
  function Expire(s: System, w: nat): System
    requires w in s.items && s.items[w].workQ.Some? && s.items[w].workQ.value in s.queues
  {
    SubmitWork(s.(items := s.items[w := s.items[w].(counting := false)]), s.items[w].workQ.value, w)
  }

  /** `work_q_main` reaches `k_queue_get`. */
  function Fetch(s: System, q: nat): System
    requires q in s.queues
  {
    var k := s.queues[q];
    s.(queues := s.queues[q := if k.list != [] then Queue(k.list[1..], Holding(k.list[0])) else k.(worker := Waiting)])
  }

  /** `work_q_main` after `k_queue_get` returned an item. */
  function Process(s: System, q: nat): System
    requires q in s.queues && s.queues[q].worker.Holding? && s.queues[q].worker.w in s.items
  {
    var w := s.queues[q].worker.w;
    var it := s.items[w];
    System(if it.pending then s.items[w := it.(pending := false, ran := it.ran + 1)] else s.items,
           s.queues[q := s.queues[q].(worker := Idle)])
  }

  // ---------- invariant ----------

  /** An item is in its queue's list or its worker's hands, once, exactly while pending. */
  ghost predicate PlacedAt(s: System, q: nat, w: nat) {
    q in s.queues ==>
      Count(s.queues[q].list, Is(w)) + One(s.queues[q].worker == Holding(w))
      == One(w in s.items && s.items[w].pending && s.items[w].workQ == Some(q))
  }

  ghost predicate ItemOk(s: System, w: nat) {
    w in s.items ==>
      var it := s.items[w];
      && (it.workQ.Some? ==> it.workQ.value in s.queues)
      && (it.counting || it.pending ==> it.workQ.Some?)
      && !(it.counting && it.pending)
      && it.became == it.ran + it.cancelled + One(it.pending)
  }

  ghost predicate Inv(s: System) {
    && (forall q, w :: PlacedAt(s, q, w)) && (forall w :: ItemOk(s, w))
    && forall q :: q in s.queues && s.queues[q].worker == Waiting ==> s.queues[q].list == []
  }

  datatype Event =
    | SubmitEvent(q: nat, w: nat, now: bool)
    | CancelEvent(w: nat)
    | CountdownEnds(w: nat)
    | WorkerGets(q: nat)
    | WorkerRuns(q: nat)

  predicate Enabled(s: System, e: Event) {
    match e
    case SubmitEvent(q, w, _) => w in s.items && q in s.queues
    case CancelEvent(w) => w in s.items
    case CountdownEnds(w) => w in s.items && s.items[w].counting
    case WorkerGets(q) => q in s.queues && s.queues[q].worker == Idle
    case WorkerRuns(q) => q in s.queues && s.queues[q].worker.Holding?
  }

  /** The item's queue, if it has one, is a queue. */
  predicate Attached(s: System, w: nat)
    requires w in s.items
  {
    s.items[w].workQ.Some? ==> s.items[w].workQ.value in s.queues
  }

  /** The guards beyond `Enabled` never fail from a state that satisfies `Inv`. */
  function Step(s: System, e: Event): System
    requires Enabled(s, e)
  {
    match e
    case SubmitEvent(q, w, now) => if Attached(s, w) then Submit(s, q, w, now).0 else s
    case CancelEvent(w) => if Attached(s, w) then Cancel(s, w).0 else s
    case CountdownEnds(w) => if Attached(s, w) && s.items[w].workQ.Some? then Expire(s, w) else s
    case WorkerGets(q) => Fetch(s, q)
    case WorkerRuns(q) => if s.queues[q].worker.w in s.items then Process(s, q) else s
  }

  lemma AppendCounts(k: Queue, w: nat, x: nat)
    ensures Count(Append(k, w).list, Is(x)) + One(Append(k, w).worker == Holding(x))
         == Count(k.list, Is(x)) + One(k.worker == Holding(x)) + One(x == w)
  {
    if k.worker != Waiting { CountPush(k.list, w, Is(x)); }
  }

  /** Submitting an attached item that is neither pending nor counting makes it pending. */
  lemma SubmitWorkKeeps(s: System, q: nat, w: nat)
    requires Inv(s) && w in s.items && q in s.queues
    requires s.items[w].workQ == Some(q) && !s.items[w].pending && !s.items[w].counting
    ensures Inv(SubmitWork(s, q, w)) && SubmitWork(s, q, w).items[w].pending
  {
    var t := SubmitWork(s, q, w);
    forall p, x ensures PlacedAt(t, p, x) {
      assert PlacedAt(s, p, x);
      AppendCounts(s.queues[q], w, x);
    }
    forall x ensures ItemOk(t, x) { assert ItemOk(s, x); assert ItemOk(s, w); }
  }

  /** Rewriting an item that is not pending. */
  lemma RewriteKeeps(s: System, w: nat, it: Item)
    requires Inv(s) && w in s.items && !s.items[w].pending && !it.pending
    requires ItemOk(s.(items := s.items[w := it]), w)
    ensures Inv(s.(items := s.items[w := it]))
  {
    var t := s.(items := s.items[w := it]);
    forall p, x ensures PlacedAt(t, p, x) { assert PlacedAt(s, p, x); }
    forall x ensures ItemOk(t, x) { assert ItemOk(s, x); }
  }

  /** Cancelling succeeds exactly for an attached item that no worker has taken; the item
      is then detached and neither counting nor pending. */
  lemma CancelKeeps(s: System, w: nat)
    requires Inv(s) && w in s.items
    ensures s.items[w].workQ.Some? ==> s.items[w].workQ.value in s.queues
    ensures var (t, code) := Cancel(s, w);
            && Inv(t) && t.queues.Keys == s.queues.Keys && t.items.Keys == s.items.Keys
            && (code == Ok <==> s.items[w].workQ.Some? && s.queues[s.items[w].workQ.value].worker != Holding(w))
            && (code == Ok ==> t.items[w].workQ == None && !t.items[w].pending && !t.items[w].counting)
            && (code != Ok ==> t == s)
  {
    assert ItemOk(s, w);
    var it := s.items[w];
    if it.workQ.Some? {
      var p := it.workQ.value;
      assert PlacedAt(s, p, w);
      if it.pending {
        var k := IndexOf(s.queues[p].list, w, 0);
        CancelPending(s, w, p, k);
      } else {
        RewriteKeeps(s, w, it.(workQ := None, counting := false));
      }
    }
  }

  lemma {:induction false} CountNone(q: seq<nat>, w: nat)
    requires forall j :: 0 <= j < |q| ==> q[j] != w
    ensures Count(q, Is(w)) == 0
  {
    if q != [] { CountNone(q[1..], w); }
  }

  lemma CancelPending(s: System, w: nat, p: nat, k: nat)
    requires Inv(s) && w in s.items && s.items[w].pending && s.items[w].workQ == Some(p) && p in s.queues
    requires k == IndexOf(s.queues[p].list, w, 0)
    ensures k == |s.queues[p].list| <==> s.queues[p].worker == Holding(w)
    ensures Inv(Cancel(s, w).0)
  {
    var it, q := s.items[w], s.queues[p];
    assert PlacedAt(s, p, w);
    if k == |q.list| {
      CountNone(q.list, w);
    } else {
      CountSome(q.list, k, Is(w));
      var t := Cancel(s, w).0;
      forall r, x ensures PlacedAt(t, r, x) {
        assert PlacedAt(s, r, x);
        CountRemove(q.list, k, Is(x));
      }
      forall x ensures ItemOk(t, x) { assert ItemOk(s, x); }
    }
  }

  lemma SubmitKeeps(s: System, q: nat, w: nat, now: bool)
    requires Inv(s) && w in s.items && q in s.queues
    ensures s.items[w].workQ.Some? ==> s.items[w].workQ.value in s.queues
    ensures Inv(Submit(s, q, w, now).0)
  {
    assert ItemOk(s, w);
    CancelKeeps(s, w);
    var it := s.items[w];
    if it.workQ == None || it.workQ == Some(q) {
      var (t, code) := if it.workQ == Some(q) then Cancel(s, w) else (s, Ok);
      if code == Ok {
        assert ItemOk(t, w);
        var it' := t.items[w].(workQ := Some(q));
        RewriteKeeps(t, w, it');
        var u := t.(items := t.items[w := it']);
        if now {
          SubmitWorkKeeps(u, q, w);
        } else {
          RewriteKeeps(u, w, it'.(counting := true));
        }
      }
    }
  }

  lemma ExpireKeeps(s: System, w: nat)
    requires Inv(s) && w in s.items && s.items[w].counting
    ensures s.items[w].workQ.Some? && s.items[w].workQ.value in s.queues
    ensures Inv(Expire(s, w)) && Expire(s, w).items[w].pending
  {
    assert ItemOk(s, w);
    RewriteKeeps(s, w, s.items[w].(counting := false));
    SubmitWorkKeeps(s.(items := s.items[w := s.items[w].(counting := false)]), s.items[w].workQ.value, w);
  }

  lemma FetchKeeps(s: System, q: nat)
    requires Inv(s) && q in s.queues && s.queues[q].worker == Idle
    ensures Inv(Fetch(s, q))
  {
    var t, k := Fetch(s, q), s.queues[q];
    forall p, x ensures PlacedAt(t, p, x) { assert PlacedAt(s, p, x); }
    forall x ensures ItemOk(t, x) { assert ItemOk(s, x); }
  }

  /** A worker only ever holds pending items, so every item it gets is run. */
  lemma ProcessKeeps(s: System, q: nat)
    requires Inv(s) && q in s.queues && s.queues[q].worker.Holding?
    ensures var w := s.queues[q].worker.w;
            && w in s.items && s.items[w].pending && Inv(Process(s, q))
            && Process(s, q).items[w].ran == s.items[w].ran + 1
  {
    var w := s.queues[q].worker.w;
    assert PlacedAt(s, q, w);
    var t := Process(s, q);
    forall p, x ensures PlacedAt(t, p, x) { assert PlacedAt(s, p, x); }
    forall x ensures ItemOk(t, x) { assert ItemOk(s, x); }
  }

  lemma StepKeeps(s: System, e: Event)
    requires Inv(s) && Enabled(s, e)
    ensures Inv(Step(s, e))
  {
    match e
    case SubmitEvent(q, w, now) => SubmitKeeps(s, q, w, now);
    case CancelEvent(w) => CancelKeeps(s, w);
    case CountdownEnds(w) => ExpireKeeps(s, w);
    case WorkerGets(q) => FetchKeeps(s, q);
    case WorkerRuns(q) => ProcessKeeps(s, q);
  }

  ghost predicate IsRun(states: seq<System>, events: seq<Event>) {
    && |states| == |events| + 1
    && forall i {:trigger events[i]} :: 0 <= i < |events| ==>
         Enabled(states[i], events[i]) && states[i + 1] == Step(states[i], events[i])
  }

  /** Initialised items and started queues. */
  ghost predicate Initial(s: System) {
    && (forall w :: w in s.items ==> s.items[w] == Item(None, false, false, 0, 0, 0))
    && (forall q :: q in s.queues ==> s.queues[q] == Queue([], Idle))
  }

  /** Over every run: an item is never counting down and pending at once, is in at most one
      place, and its handler has run once for every time it became pending, except for
      those a cancel took out and the one still pending. */
  lemma {:induction false} EveryRunIsExact(states: seq<System>, events: seq<Event>, n: nat)
    requires IsRun(states, events) && Initial(states[0]) && n < |states|
    ensures Inv(states[n])
    decreases n
  {
    if n == 0 {
      forall q, w ensures PlacedAt(states[0], q, w) {}
      forall w ensures ItemOk(states[0], w) {}
    } else {
      EveryRunIsExact(states, events, n - 1);
      StepKeeps(states[n - 1], events[n - 1]);
    }
  }

  // ---------- what each call does ----------

  /** `w` goes to the waiting worker, else to the end of the list. */
  ghost predicate Appends(k: Queue, k': Queue, w: nat) {
    k' == if k.worker == Waiting then Queue(k.list, Holding(w)) else Queue(k.list + [w], k.worker)
  }

  /** `w` is taken out of the list. */
  ghost predicate TakesOut(k: Queue, k': Queue, w: nat) { exists i :: TakesOutAt(k, k', w, i) }

  ghost predicate TakesOutAt(k: Queue, k': Queue, w: nat, i: int) {
    0 <= i < |k.list| && k.list[i] == w && k' == Queue(k.list[..i] + k.list[i + 1..], k.worker)
  }

  /** Item `w` becomes `it` and queue `q` becomes `k`; nothing else changes. */
  ghost predicate Becomes(s: System, t: System, w: nat, it: Item, q: nat, k: Queue) {
    t.items == s.items[w := it] && t.queues == s.queues[q := k]
  }

  /** Cancelling fails, without effect, exactly for an item that is detached or in its
      worker's hands.  Otherwise a pending item is taken out of its queue's list, a
      countdown is stopped, and the item is detached. */
  lemma CancelOutcome(s: System, w: nat)
    requires Inv(s) && w in s.items
    ensures Attached(s, w)
    ensures var (t, code) := Cancel(s, w);
            var it := s.items[w];
            if it.workQ == None || s.queues[it.workQ.value].worker == Holding(w) then t == s && code == Einval
            else
              var q := it.workQ.value;
              && code == Ok && q in t.queues
              && Becomes(s, t, w, Item(None, false, false, it.became, it.ran, it.cancelled + One(it.pending)),
                         q, t.queues[q])
              && (if it.pending then TakesOut(s.queues[q], t.queues[q], w) else t.queues[q] == s.queues[q])
  {
    CancelKeeps(s, w);
    var it := s.items[w];
    assert ItemOk(s, w);
    if it.workQ.Some? {
      var q := it.workQ.value;
      assert PlacedAt(s, q, w);
      if it.pending && s.queues[q].worker != Holding(w) {
        var k := IndexOf(s.queues[q].list, w, 0);
        CancelPending(s, w, q, k);
        assert TakesOutAt(s.queues[q], Cancel(s, w).0.queues[q], w, k);
      }
      assert s.queues[q := s.queues[q]] == s.queues;
    }
  }

  /** Submitting is refused, without effect, for an item of another queue or in its worker's
      hands.  Otherwise an earlier submission is cancelled, and the item is attached: pending
      at the end of the queue if there is no delay, counting down if there is. */
  lemma SubmitOutcome(s: System, q: nat, w: nat, now: bool) returns (k: Queue)
    requires Inv(s) && w in s.items && q in s.queues
    ensures Attached(s, w)
    ensures var (t, code) := Submit(s, q, w, now);
            var it := s.items[w];
            if it.workQ.Some? && it.workQ.value != q then t == s && code == Eaddrinuse
            else if it.workQ == Some(q) && s.queues[q].worker == Holding(w) then t == s && code == Einval
            else
              && code == Ok && q in t.queues
              && (if it.pending then TakesOut(s.queues[q], k, w) else k == s.queues[q])
              && (if now then Appends(k, t.queues[q], w) else t.queues[q] == k)
              && var it' := Item(Some(q), !now, now, it.became + One(now), it.ran, it.cancelled + One(it.pending));
                 Becomes(s, t, w, it', q, t.queues[q])
  {
    assert ItemOk(s, w);
    k := s.queues[q];
    if s.items[w].workQ == Some(q) {
      CancelOutcome(s, w);
      k := Cancel(s, w).0.queues[q];
    }
  }

  /** A countdown that ends makes its item pending at the end of its queue. */
  lemma ExpireOutcome(s: System, w: nat)
    requires Inv(s) && w in s.items && s.items[w].counting
    ensures s.items[w].workQ.Some? && s.items[w].workQ.value in s.queues
    ensures var it, q, t := s.items[w], s.items[w].workQ.value, Expire(s, w);
            && q in t.queues && Appends(s.queues[q], t.queues[q], w)
            && Becomes(s, t, w, it.(counting := false, pending := true, became := it.became + 1), q, t.queues[q])
  {
    assert ItemOk(s, w);
  }

  /** A worker takes the first item of its list, or waits; what it took it runs, once. */
  lemma WorkerOutcome(s: System, q: nat)
    requires Inv(s) && q in s.queues
    ensures s.queues[q].worker == Idle ==>
              var list := s.queues[q].list;
              Fetch(s, q) == s.(queues := s.queues[q := if list == [] then Queue([], Waiting)
                                                        else Queue(list[1..], Holding(list[0]))])
    ensures s.queues[q].worker.Holding? ==>
              var w := s.queues[q].worker.w;
              && w in s.items
              && Becomes(s, Process(s, q), w, s.items[w].(pending := false, ran := s.items[w].ran + 1),
                         q, Queue(s.queues[q].list, Idle))
  {
    if s.queues[q].worker.Holding? { ProcessKeeps(s, q); }
  }

  // ---------- in place ----------

  class WorkSystem {
    var items: map<nat, Item>
    var queues: map<nat, Queue>

    ghost function State(): System
      reads this
    {
      System(items, queues)
    }

    /** `k_work_submit_to_queue`: afterwards the item is pending, once more than before unless
        it was already; submitting a delayed item to its queue keeps the invariant. */
    method SubmitWorkTo(q: nat, w: nat)
      requires w in items && q in queues
      modifies this
      ensures State() == SubmitWork(old(State()), q, w) && w in items && items[w].pending
      ensures items[w].became == old(items[w].became) + One(!old(items[w].pending))
      ensures old(Inv(State()) && items[w].workQ == Some(q) && !items[w].counting) ==> Inv(State())
    {
      if Inv(State()) && items[w].workQ == Some(q) && !items[w].counting && !items[w].pending {
        SubmitWorkKeeps(State(), q, w);
      }
      if !items[w].pending {
        items := items[w := items[w].(pending := true, became := items[w].became + 1)];
        if queues[q].worker == Waiting {
          queues := queues[q := queues[q].(worker := Holding(w))];
        } else {
          queues := queues[q := queues[q].(list := queues[q].list + [w])];
        }
      }
    }

    method CancelWork(w: nat) returns (code: Code)
      requires Inv(State()) && w in items
      modifies this
      ensures Inv(State()) && Attached(old(State()), w) && (State(), code) == Cancel(old(State()), w)
    {
      CancelKeeps(State(), w);
      var it := items[w];
      if it.workQ == None {
        return Einval;
      }
      if it.pending {
        var p := it.workQ.value;
        var list, i := queues[p].list, 0;
        while i < |list| && list[i] != w
          invariant 0 <= i <= |list| && IndexOf(list, w, 0) == IndexOf(list, w, i)
        {
          i := i + 1;
        }
        if i == |list| {
          return Einval;
        }
        queues := queues[p := queues[p].(list := RemoveAt(list, i))];
        it := it.(cancelled := it.cancelled + 1);
      } else {
        it := it.(counting := false);
      }
      items := items[w := it.(workQ := None, pending := false)];
      code := Ok;
    }

    method SubmitDelayed(q: nat, w: nat, delay: nat) returns (code: Code)
      requires Inv(State()) && w in items && q in queues
      modifies this
      ensures Inv(State()) && Attached(old(State()), w) && (State(), code) == Submit(old(State()), q, w, delay == 0)
    {
      SubmitKeeps(State(), q, w, delay == 0);
      if items[w].workQ.Some? && items[w].workQ != Some(q) {
        return Eaddrinuse;
      }
      if items[w].workQ == Some(q) {
        CancelKeeps(State(), w);
        code := CancelWork(w);
        if code != Ok {
          return;
        }
      }
      items := items[w := items[w].(workQ := Some(q))];
      if delay == 0 {
        SubmitWorkTo(q, w);
      } else {
        items := items[w := items[w].(counting := true)];
      }
      code := Ok;
    }

    /** `work_timeout`, when the countdown of `w` ends: the item becomes pending. */
    method CountdownEnds(w: nat)
      requires Inv(State()) && w in items && items[w].counting
      modifies this
      ensures var s := old(State());
              s.items[w].workQ.Some? && s.items[w].workQ.value in s.queues && State() == Expire(s, w)
      ensures Inv(State()) && w in items && items[w].pending && items[w].became == old(items[w].became) + 1
    {
      ExpireKeeps(State(), w);
      assert ItemOk(State(), w);
      items := items[w := items[w].(counting := false)];
      SubmitWorkTo(items[w].workQ.value, w);
    }

    /** The rest of a turn of `work_q_main`, once `k_queue_get` returned an item, from the list
        or handed over while the worker was pended: it is pending, so it is run, once. */
    method RunHeld(q: nat) returns (ran: nat)
      requires Inv(State()) && q in queues && queues[q].worker.Holding?
      modifies this
      ensures Inv(State()) && ran == old(queues[q].worker.w) && ran in old(items) && State() == Process(old(State()), q)
      ensures ran in items && items[ran].ran == old(items)[ran].ran + 1 && !items[ran].pending
    {
      ProcessKeeps(State(), q);
      ran := queues[q].worker.w;
      if items[ran].pending {
        items := items[ran := items[ran].(pending := false, ran := items[ran].ran + 1)];
      }
      queues := queues[q := queues[q].(worker := Idle)];
    }

    /** One turn of `work_q_main` from the top: the first item of the list is run, or the
        worker pends. */
    method WorkerTurn(q: nat) returns (ran: Option<nat>)
      requires Inv(State()) && q in queues && queues[q].worker == Idle
      modifies this
      ensures Inv(State())
      ensures var s := Fetch(old(State()), q);
              if old(queues[q].list) == [] then ran == None && State() == s
              else ran == Some(old(queues[q].list[0])) && s.queues[q].worker.w in s.items && State() == Process(s, q)
    {
      FetchKeeps(State(), q);
      var list := queues[q].list;
      if |list| == 0 {
        queues := queues[q := queues[q].(worker := Waiting)];
        return None;
      }
      var w := list[0];
      queues := queues[q := Queue(list[1..], Holding(w))];
      ProcessKeeps(State(), q);
      var x := RunHeld(q);
      ran := Some(x);
    }
  }
}
