/** The kernel's timeout queue: each entry stores its ticks after the entry before it. */
module Timeouts {
  import opened PriorityList
  import opened Counting
  import opened Ticks

  datatype Timeout = Timeout(id: nat, delta: nat)

  /** Ticks left for entry `i`. */
  function Left(q: seq<Timeout>, i: nat): nat
    requires i < |q|
  {
    if i == 0 then q[0].delta else Left(q, i - 1) + q[i].delta
  }

  function Ids(q: seq<Timeout>): (r: seq<nat>)
    ensures |r| == |q| && forall i :: 0 <= i < |q| ==> r[i] == q[i].id
  {
    seq(|q|, i requires 0 <= i < |q| => q[i].id)
  }

  function Reverse(s: seq<nat>): (r: seq<nat>)
    ensures |r| == |s| && forall i :: 0 <= i < |s| ==> r[i] == s[|s| - 1 - i]
  {
    seq(|s|, i requires 0 <= i < |s| => s[|s| - 1 - i])
  }

  lemma {:induction false} LeftTail(q: seq<Timeout>, i: nat)
    requires 0 < i < |q|
    ensures Left(q, i) == q[0].delta + Left(q[1..], i - 1)
  {
    if i > 1 { LeftTail(q, i - 1); }
  }

  lemma {:induction false} LeftGrows(q: seq<Timeout>, i: nat, j: nat)
    requires i <= j < |q|
    ensures Left(q, i) <= Left(q, j)
    decreases j
  {
    if i < j { LeftGrows(q, i, j - 1); }
  }

  // ---------- adding ----------

  /** The walk of `_add_timeout` for `ticks` more than the entries already passed. */
  function Enqueue(q: seq<Timeout>, id: nat, ticks: nat): seq<Timeout> {
    if q == [] then [Timeout(id, ticks)]
    else if ticks <= q[0].delta then [Timeout(id, ticks), q[0].(delta := q[0].delta - ticks)] + q[1..]
    else [q[0]] + Enqueue(q[1..], id, ticks - q[0].delta)
  }

  /** Entry `k` of `r` is new with `ticks` left; all others keep their ids and times. */
  ghost predicate Added(q: seq<Timeout>, r: seq<Timeout>, id: nat, ticks: nat, k: nat) {
    && |r| == |q| + 1 && k <= |q| && r[k].id == id && Left(r, k) == ticks
    && (forall i :: 0 <= i < k ==> r[i].id == q[i].id && Left(r, i) == Left(q, i) < ticks)
    && (forall i :: k <= i < |q| ==> r[i + 1].id == q[i].id && Left(r, i + 1) == Left(q, i) && ticks <= Left(q, i))
  }

  /** Adding gives the newcomer its ticks, in front of those due at the same tick, and
      changes nobody else's remaining time. */
  lemma {:induction false} AddMeaning(q: seq<Timeout>, id: nat, ticks: nat) returns (k: nat)
    ensures Added(q, Enqueue(q, id, ticks), id, ticks, k)
    decreases |q|
  {
    var r := Enqueue(q, id, ticks);
    if q == [] {
      k := 0;
    } else if ticks <= q[0].delta {
      k := 0;
      assert Left(r, 1) == q[0].delta;
      forall i | 0 <= i < |q| ensures r[i + 1].id == q[i].id && Left(r, i + 1) == Left(q, i) && ticks <= Left(q, i) {
        SameTail(r, q, 1, 0, i);
        LeftGrows(q, 0, i);
      }
    } else {
      var m := AddMeaning(q[1..], id, ticks - q[0].delta);
      k := m + 1;
      AddedCons(q, r, id, ticks, m);
    }
  }

  /** Equal deltas after equal times give equal times. */
  lemma {:induction false} SameTail(r: seq<Timeout>, q: seq<Timeout>, a: nat, b: nat, i: nat)
    requires b <= i < |q| && a + i - b < |r| && Left(r, a) == Left(q, b)
    requires forall j :: b < j <= i ==> q[j].delta == r[j + a - b].delta
    ensures Left(r, a + i - b) == Left(q, i)
    decreases i
  {
    if i > b { SameTail(r, q, a, b, i - 1); }
  }

  lemma AddedCons(q: seq<Timeout>, r: seq<Timeout>, id: nat, ticks: nat, m: nat)
    requires q != [] && r != [] && r[0] == q[0] && q[0].delta < ticks
    requires Added(q[1..], r[1..], id, ticks - q[0].delta, m)
    ensures Added(q, r, id, ticks, m + 1)
  {
    LeftTail(r, m + 1);
    forall i | 0 <= i < m + 1 ensures r[i].id == q[i].id && Left(r, i) == Left(q, i) < ticks {
      if i > 0 {
        LeftTail(r, i);
        LeftTail(q, i);
        assert r[1..][i - 1].id == q[1..][i - 1].id;
      }
    }
    forall i | m + 1 <= i < |q| ensures r[i + 1].id == q[i].id && Left(r, i + 1) == Left(q, i) && ticks <= Left(q, i) {
      LeftTail(r, i + 1);
      LeftTail(q, i);
      assert r[1..][i].id == q[1..][i - 1].id;
    }
  }

  // ---------- aborting ----------

  /** `_abort_timeout` on entry `i`: its ticks go to the next entry. */
  function Abort(q: seq<Timeout>, i: nat): seq<Timeout>
    requires i < |q|
  {
    RemoveAt(if i + 1 < |q| then q[i + 1 := q[i + 1].(delta := q[i + 1].delta + q[i].delta)] else q, i)
  }

  lemma AbortShape(q: seq<Timeout>, i: nat)
    requires i < |q|
    ensures var r := Abort(q, i);
            && |r| == |q| - 1
            && (forall j :: 0 <= j < i ==> r[j] == q[j]) && (forall j :: i < j < |r| ==> r[j] == q[j + 1])
            && (i < |r| ==> r[i].id == q[i + 1].id && r[i].delta == q[i].delta + q[i + 1].delta)
  {
  }

  /** Aborting changes nobody else's remaining time. */
  lemma {:induction false} AbortMeaning(q: seq<Timeout>, i: nat)
    requires i < |q|
    ensures var r := Abort(q, i);
            && |r| == |q| - 1
            && (forall j :: 0 <= j < i ==> r[j].id == q[j].id && Left(r, j) == Left(q, j))
            && (forall j :: i <= j < |r| ==> r[j].id == q[j + 1].id && Left(r, j) == Left(q, j + 1))
  {
    AbortShape(q, i);
    var r := Abort(q, i);
    forall j | 0 <= j < i ensures Left(r, j) == Left(q, j) { AbortLeft(q, r, i, j); }
    forall j | i <= j < |r| ensures r[j].id == q[j + 1].id && Left(r, j) == Left(q, j + 1) { AbortLeft(q, r, i, j); }
  }

  lemma {:induction false} AbortLeft(q: seq<Timeout>, r: seq<Timeout>, i: nat, j: nat)
    requires i < |q| == |r| + 1 && j < |r|
    requires forall k :: 0 <= k < i ==> r[k] == q[k]
    requires forall k :: i < k < |r| ==> r[k] == q[k + 1]
    requires i < |r| ==> r[i].delta == q[i].delta + q[i + 1].delta
    ensures Left(r, j) == if j < i then Left(q, j) else Left(q, j + 1)
    decreases j
  {
    if j > 0 { AbortLeft(q, r, i, j - 1); }
  }

  // ---------- announcing ----------

  /** `handle_timeouts`: the queue left, and the expired list. */
  function Announce(q: seq<Timeout>, ticks: nat): (seq<Timeout>, seq<nat>) {
    if q == [] then ([], [])
    else if q[0].delta <= ticks then
      var (r, e) := Announce(q[1..], ticks - q[0].delta);
      (r, e + [q[0].id])
    else (q[0 := q[0].(delta := q[0].delta - ticks)], [])
  }

  /** The first `k` entries are the ones due within `ticks`. */
  ghost predicate DueWithin(q: seq<Timeout>, ticks: nat, k: nat) {
    && k <= |q| && (forall i :: 0 <= i < k ==> Left(q, i) <= ticks)
    && (forall i :: k <= i < |q| ==> ticks < Left(q, i))
  }

  /** After `ticks`: the due entries are gone, the others keep order and lose `ticks`. */
  ghost predicate Elapsed(q: seq<Timeout>, r: seq<Timeout>, ticks: nat, k: nat) {
    && |r| == |q| - k
    && forall i :: 0 <= i < |r| ==> r[i].id == q[k + i].id && Left(r, i) + ticks == Left(q, k + i)
  }

  /** Announcing removes exactly the entries due within `ticks`, onto the expired list in
      reverse queue order, and takes exactly `ticks` off each survivor. */
  lemma {:induction false} AnnounceMeaning(q: seq<Timeout>, ticks: nat) returns (k: nat)
    ensures DueWithin(q, ticks, k) && Elapsed(q, Announce(q, ticks).0, ticks, k)
    ensures Announce(q, ticks).1 == Reverse(Ids(q[..k]))
    decreases |q|
  {
    if q == [] {
      k := 0;
    } else if q[0].delta <= ticks {
      var m := AnnounceMeaning(q[1..], ticks - q[0].delta);
      k := m + 1;
      AnnounceCons(q, Announce(q, ticks).0, ticks, m);
      ReverseCons(q, m);
    } else {
      k := 0;
      var r := Announce(q, ticks).0;
      forall i | 0 <= i < |q| ensures r[i].id == q[i].id && Left(r, i) + ticks == Left(q, i) && ticks < Left(q, i) {
        LeftGrows(q, 0, i);
        Shifted(q, r, ticks, i);
      }
    }
  }

  lemma AnnounceCons(q: seq<Timeout>, r: seq<Timeout>, ticks: nat, m: nat)
    requires q != [] && q[0].delta <= ticks
    requires DueWithin(q[1..], ticks - q[0].delta, m) && Elapsed(q[1..], r, ticks - q[0].delta, m)
    ensures DueWithin(q, ticks, m + 1) && Elapsed(q, r, ticks, m + 1)
  {
    forall i | 0 < i < |q| ensures Left(q, i) == q[0].delta + Left(q[1..], i - 1) { LeftTail(q, i); }
    forall i | 0 <= i < |r| ensures r[i].id == q[m + 1 + i].id && Left(r, i) + ticks == Left(q, m + 1 + i) {
      assert q[1..][m + i] == q[m + 1 + i];
    }
  }

  lemma ReverseCons(q: seq<Timeout>, m: nat)
    requires m < |q|
    ensures Reverse(Ids(q[..m + 1])) == Reverse(Ids(q[1..][..m])) + [q[0].id]
  {
  }

  lemma {:induction false} Shifted(q: seq<Timeout>, r: seq<Timeout>, ticks: nat, i: nat)
    requires i < |q| == |r| && r[0].delta + ticks == q[0].delta && r[1..] == q[1..]
    ensures Left(r, i) + ticks == Left(q, i)
  {
    if i > 0 {
      Shifted(q, r, ticks, i - 1);
      assert r[i] == r[1..][i - 1] && q[i] == q[1..][i - 1];
    }
  }

  /** Announcing `a` and then `b` is announcing `a + b`; the later expiries come first on
      the combined list. */
  lemma {:induction false} AnnounceTwice(q: seq<Timeout>, a: nat, b: nat)
    ensures var (r, e) := Announce(q, a);
            var (r', e') := Announce(r, b);
            Announce(q, a + b) == (r', e' + e)
    decreases |q|
  {
    if q != [] && q[0].delta <= a {
      AnnounceTwice(q[1..], a - q[0].delta, b);
      var (r, e) := Announce(q[1..], a - q[0].delta);
      var (r', e') := Announce(r, b);
      assert (e' + e) + [q[0].id] == e' + (e + [q[0].id]);
    } else if q != [] {
      var r := q[0 := q[0].(delta := q[0].delta - a)];
      assert Announce(q, a) == (r, []) && r[1..] == q[1..];
      var (r', e') := Announce(r, b);
      assert e' + [] == e';
      if a + b < q[0].delta { assert r' == Announce(q, a + b).0; }
    } else {
      var (r, e) := Announce(q, a);
      assert Announce(r, b).1 + e == [];
    }
  }

  // ---------- absolute time ----------

  /** One expiry: its deadline, and the clock before and after the announcement. */
  datatype Firing = Firing(id: nat, deadline: nat, before: nat, at: nat)

  /** The queue with the clock, every active timeout's absolute deadline, and the history of
      additions, expiries and aborts. */
  datatype Clock = Clock(now: nat, q: seq<Timeout>, deadline: map<nat, nat>,
                         added: seq<nat>, fired: seq<Firing>, aborted: seq<nat>)

  datatype Event = AddTimeout(id: nat, ticks: nat) | AbortTimeout(i: nat) | AnnounceTicks(ticks: nat)

  /** An active timeout is not added again. */
  predicate Enabled(s: Clock, e: Event) {
    match e
    case AddTimeout(id, _) => id !in s.deadline
    case AbortTimeout(i) => i < |s.q|
    case AnnounceTicks(_) => true
  }

  function Stamp(ids: seq<nat>, deadline: map<nat, nat>, before: nat, at: nat): (r: seq<Firing>)
    ensures |r| == |ids|
  {
    seq(|ids|, i requires 0 <= i < |ids| =>
          Firing(ids[i], if ids[i] in deadline then deadline[ids[i]] else 0, before, at))
  }

  /** A timeout of 0 ticks is handled at once and never queued. */
  function Step(s: Clock, e: Event): Clock
    requires Enabled(s, e)
  {
    match e
    case AddTimeout(id, ticks) =>
      var u := s.(added := s.added + [id]);
      if ticks == 0 then u.(fired := s.fired + [Firing(id, s.now, s.now, s.now)])
      else u.(q := Enqueue(s.q, id, ticks), deadline := s.deadline[id := s.now + ticks])
    case AbortTimeout(i) =>
      s.(q := Abort(s.q, i), deadline := s.deadline - {s.q[i].id}, aborted := s.aborted + [s.q[i].id])
    case AnnounceTicks(ticks) =>
      var (r, e) := Announce(s.q, ticks);
      s.(now := s.now + ticks, q := r, deadline := map id | id in s.deadline && id !in e :: s.deadline[id],
         fired := s.fired + Stamp(e, s.deadline, s.now, s.now + ticks))
  }

  /** The queue is exactly the active timeouts, each due at its deadline, none overdue. */
  ghost predicate Inv(s: Clock) {
    && NoRepeats(Ids(s.q)) && (forall id :: id in s.deadline <==> id in Ids(s.q))
    && forall i :: 0 <= i < |s.q| ==> OnTime(s, i)
  }

  lemma AddedIds(q: seq<Timeout>, r: seq<Timeout>, id: nat, ticks: nat, k: nat)
    requires Added(q, r, id, ticks, k) && NoRepeats(Ids(q)) && id !in Ids(q)
    ensures NoRepeats(Ids(r)) && forall x :: x in Ids(r) <==> x == id || x in Ids(q)
  {
    var a, b := Ids(q), Ids(r);
    forall i | 0 <= i < |b| ensures b[i] == if i < k then a[i] else if i == k then id else a[i - 1] {
      if i > k { assert r[(i - 1) + 1].id == q[i - 1].id; }
    }
    forall i, j | 0 <= i < j < |b| ensures b[i] != b[j] {
      assert i != k ==> b[i] == a[if i < k then i else i - 1];
      assert j != k ==> b[j] == a[if j < k then j else j - 1];
    }
    forall x | x in a ensures x in b {
      var i :| 0 <= i < |a| && a[i] == x;
      assert b[if i < k then i else i + 1] == x;
    }
    assert b[k] == id;
    forall x | x in b ensures x == id || x in a {
      var i :| 0 <= i < |b| && b[i] == x;
      assert i != k ==> b[i] == a[if i < k then i else i - 1];
    }
  }

  /** Entry `i` is active and due at its deadline. */
  ghost predicate OnTime(s: Clock, i: nat)
    requires i < |s.q|
  {
    s.q[i].id in s.deadline && s.now + Left(s.q, i) == s.deadline[s.q[i].id] && 0 < Left(s.q, i)
  }

  lemma AddKeeps(s: Clock, id: nat, ticks: nat)
    requires Inv(s) && id !in s.deadline && ticks > 0
    ensures Inv(Step(s, AddTimeout(id, ticks)))
  {
    var t := Step(s, AddTimeout(id, ticks));
    var k := AddMeaning(s.q, id, ticks);
    AddedIds(s.q, t.q, id, ticks, k);
    forall i | 0 <= i < |t.q| ensures OnTime(t, i) {
      AddedOnTime(s, t, id, ticks, k, i);
    }
  }

  lemma AddedOnTime(s: Clock, t: Clock, id: nat, ticks: nat, k: nat, i: nat)
    requires Added(s.q, t.q, id, ticks, k) && 0 < ticks && i < |t.q| && (forall j :: 0 <= j < |s.q| ==> OnTime(s, j))
    requires id !in s.deadline && t.now == s.now && t.deadline == s.deadline[id := s.now + ticks]
    ensures OnTime(t, i)
  {
    if i < k {
      assert OnTime(s, i);
    } else if i > k {
      assert Left(t.q, (i - 1) + 1) == Left(s.q, i - 1) && OnTime(s, i - 1);
    }
  }

  lemma AbortKeeps(s: Clock, i: nat)
    requires Inv(s) && i < |s.q|
    ensures Inv(Step(s, AbortTimeout(i)))
  {
    var t := Step(s, AbortTimeout(i));
    AbortMeaning(s.q, i);
    assert Ids(t.q) == RemoveAt(Ids(s.q), i);
    RemoveNoRepeats(Ids(s.q), i);
    SplitAt(Ids(s.q), i);
    forall j | 0 <= j < |t.q| ensures OnTime(t, j) {
      assert t.q[j].id == Ids(t.q)[j];
      assert OnTime(s, if j < i then j else j + 1);
    }
  }

  lemma AnnouncedIds(q: seq<Timeout>, ticks: nat, k: nat)
    requires NoRepeats(Ids(q)) && DueWithin(q, ticks, k) && Elapsed(q, Announce(q, ticks).0, ticks, k)
    requires Announce(q, ticks).1 == Reverse(Ids(q[..k]))
    ensures var (r, e) := Announce(q, ticks);
            && NoRepeats(Ids(r))
            && (forall i :: 0 <= i < |q| ==> (q[i].id in e <==> i < k) && (q[i].id in Ids(r) <==> k <= i))
            && (forall x :: x in e || x in Ids(r) ==> x in Ids(q))
  {
    var (r, e) := Announce(q, ticks);
    forall i | 0 <= i < |r| ensures Ids(r)[i] == Ids(q)[k + i] {}
    forall i | 0 <= i < k ensures e[i] == Ids(q)[k - 1 - i] {}
    forall i | 0 <= i < |q| ensures (q[i].id in e <==> i < k) && (q[i].id in Ids(r) <==> k <= i) {
      assert q[i].id == Ids(q)[i];
      if i < k { assert e[k - 1 - i] == q[i].id; } else { assert Ids(r)[i - k] == q[i].id; }
    }
  }

  /** Announcing fires exactly the timeouts whose deadline has come. */
  lemma AnnounceKeeps(s: Clock, ticks: nat)
    requires Inv(s)
    ensures var t := Step(s, AnnounceTicks(ticks));
            && Inv(t)
            && (forall id :: id in s.deadline ==> (id in t.deadline <==> s.now + ticks < s.deadline[id]))
            && (forall id :: id in t.deadline ==> id in s.deadline && t.deadline[id] == s.deadline[id])
            && (forall id :: id in Announce(s.q, ticks).1 <==> id in s.deadline && id !in t.deadline)
  {
    var t := Step(s, AnnounceTicks(ticks));
    var k := AnnounceMeaning(s.q, ticks);
    AnnouncedIds(s.q, ticks, k);
    forall id | id in s.deadline
      ensures id in t.deadline <==> id in Ids(t.q)
      ensures id in t.deadline <==> s.now + ticks < s.deadline[id]
    {
      assert id in Ids(s.q);
      var i :| 0 <= i < |s.q| && s.q[i].id == id;
      assert OnTime(s, i);
    }
    forall i | 0 <= i < |t.q| ensures OnTime(t, i) {
      assert OnTime(s, k + i) && Ids(t.q)[i] == t.q[i].id;
    }
  }

  // ---------- what fires, and how often ----------

  /** An expiry comes in the announcement that takes the clock to or past its deadline, not
      before it and not after it. */
  ghost predicate Punctual(fired: seq<Firing>) {
    forall i :: 0 <= i < |fired| ==> var f := fired[i];
      f.before < f.deadline <= f.at || (f.before == f.deadline == f.at)
  }

  function FiredIs(x: nat): Firing -> bool { (f: Firing) => f.id == x }

  /** Every addition of `x` has fired once, was aborted once, or is still counting down. */
  ghost predicate Settled(s: Clock, x: nat) {
    Count(s.added, Is(x)) == Count(s.fired, FiredIs(x)) + Count(s.aborted, Is(x)) + One(x in s.deadline)
  }

  lemma {:induction false} CountOnce(q: seq<nat>, x: nat)
    requires NoRepeats(q)
    ensures Count(q, Is(x)) == One(x in q)
  {
    if q != [] {
      assert forall i :: 0 <= i < |q| - 1 ==> q[1..][i] == q[i + 1];
      CountOnce(q[1..], x);
      assert x in q <==> x == q[0] || x in q[1..];
      assert q[0] !in q[1..];
    }
  }

  lemma {:induction false} CountStamp(ids: seq<nat>, deadline: map<nat, nat>, before: nat, at: nat, x: nat)
    ensures Count(Stamp(ids, deadline, before, at), FiredIs(x)) == Count(ids, Is(x))
  {
    if ids != [] {
      CountStamp(ids[1..], deadline, before, at, x);
      assert Stamp(ids, deadline, before, at)[1..] == Stamp(ids[1..], deadline, before, at);
    }
  }

  lemma ReverseNoRepeats(q: seq<Timeout>, k: nat)
    requires NoRepeats(Ids(q)) && k <= |q|
    ensures NoRepeats(Reverse(Ids(q[..k])))
  {
    var e := Reverse(Ids(q[..k]));
    forall i, j | 0 <= i < j < |e| ensures e[i] != e[j] {
      assert e[i] == Ids(q)[k - 1 - i] && e[j] == Ids(q)[k - 1 - j];
    }
  }

  lemma AddSettles(s: Clock, id: nat, ticks: nat, x: nat)
    requires Settled(s, x) && id !in s.deadline
    ensures Settled(Step(s, AddTimeout(id, ticks)), x)
  {
    CountPush(s.added, id, Is(x));
    CountPush(s.fired, Firing(id, s.now, s.now, s.now), FiredIs(x));
  }

  lemma AbortSettles(s: Clock, i: nat, x: nat)
    requires Inv(s) && i < |s.q| && Settled(s, x)
    ensures Settled(Step(s, AbortTimeout(i)), x)
  {
    assert OnTime(s, i);
    CountPush(s.aborted, s.q[i].id, Is(x));
  }

  /** An announcement fires a timeout at most once. */
  lemma FiresOnce(s: Clock, ticks: nat, x: nat)
    requires Inv(s)
    ensures var e := Announce(s.q, ticks).1;
            && Count(e, Is(x)) == One(x in e)
            && (x in s.deadline <== x in e)
  {
    var k := AnnounceMeaning(s.q, ticks);
    ReverseNoRepeats(s.q, k);
    CountOnce(Announce(s.q, ticks).1, x);
    AnnounceKeeps(s, ticks);
  }

  lemma AnnounceSettles(s: Clock, ticks: nat, x: nat)
    requires Inv(s) && Settled(s, x)
    ensures Settled(Step(s, AnnounceTicks(ticks)), x)
  {
    var e := Announce(s.q, ticks).1;
    FiresOnce(s, ticks, x);
    var f := Stamp(e, s.deadline, s.now, s.now + ticks);
    CountStamp(e, s.deadline, s.now, s.now + ticks, x);
    CountConcat(s.fired, f, FiredIs(x));
    var t := Step(s, AnnounceTicks(ticks));
    assert t.added == s.added && t.aborted == s.aborted && t.fired == s.fired + f;
    assert x in t.deadline <==> x in s.deadline && x !in e;
  }

  lemma AnnouncePunctual(s: Clock, ticks: nat)
    requires Inv(s)
    ensures Punctual(Stamp(Announce(s.q, ticks).1, s.deadline, s.now, s.now + ticks))
  {
    var e := Announce(s.q, ticks).1;
    AnnounceKeeps(s, ticks);
    forall j | 0 <= j < |e| ensures e[j] in s.deadline && s.now < s.deadline[e[j]] <= s.now + ticks {
      assert e[j] in e;
      assert e[j] in Ids(s.q);
      var i :| 0 <= i < |s.q| && Ids(s.q)[i] == e[j];
      assert OnTime(s, i);
    }
  }

  lemma StepKeeps(s: Clock, e: Event)
    requires Inv(s) && Punctual(s.fired) && Enabled(s, e)
    ensures Inv(Step(s, e)) && Punctual(Step(s, e).fired)
  {
    match e
    case AddTimeout(id, ticks) =>
      if ticks > 0 {
        AddKeeps(s, id, ticks);
      } else {
        forall i | 0 <= i < |s.q| ensures OnTime(Step(s, e), i) { assert OnTime(s, i); }
      }
    case AbortTimeout(i) => AbortKeeps(s, i);
    case AnnounceTicks(ticks) =>
      AnnounceKeeps(s, ticks);
      AnnouncePunctual(s, ticks);
  }

  lemma StepSettles(s: Clock, e: Event, x: nat)
    requires Inv(s) && Enabled(s, e) && Settled(s, x)
    ensures Settled(Step(s, e), x)
  {
    match e
    case AddTimeout(id, ticks) => AddSettles(s, id, ticks, x);
    case AbortTimeout(i) => AbortSettles(s, i, x);
    case AnnounceTicks(ticks) => AnnounceSettles(s, ticks, x);
  }

  ghost predicate IsRun(states: seq<Clock>, events: seq<Event>) {
    && |states| == |events| + 1
    && forall i {:trigger events[i]} :: 0 <= i < |events| ==>
         Enabled(states[i], events[i]) && states[i + 1] == Step(states[i], events[i])
  }

  const Start := Clock(0, [], map[], [], [], [])

  /** In every run the queue is exactly the active timeouts, each due at its deadline, and
      every expiry is punctual. */
  lemma {:induction false} EveryRunIsOnTime(states: seq<Clock>, events: seq<Event>, n: nat)
    requires IsRun(states, events) && states[0] == Start && n < |states|
    ensures Inv(states[n]) && Punctual(states[n].fired)
    decreases n
  {
    if n > 0 {
      EveryRunIsOnTime(states, events, n - 1);
      StepKeeps(states[n - 1], events[n - 1]);
    }
  }

  /** In every run each timeout added fires exactly once, unless it was aborted or is still
      counting down. */
  lemma {:induction false} EveryTimeoutFiresOnce(states: seq<Clock>, events: seq<Event>, n: nat, x: nat)
    requires IsRun(states, events) && states[0] == Start && n < |states|
    ensures Settled(states[n], x)
    decreases n
  {
    if n > 0 {
      EveryTimeoutFiresOnce(states, events, n - 1, x);
      EveryRunIsOnTime(states, events, n - 1);
      StepSettles(states[n - 1], events[n - 1], x);
    }
  }

  // ---------- what each call does ----------

  /** Adding gives the timeout the deadline its ticks from now, and its place in the queue;
      with no ticks it has fired. */
  lemma AddOutcome(s: Clock, id: nat, ticks: nat) returns (k: nat)
    requires id !in s.deadline
    ensures var t := Step(s, AddTimeout(id, ticks));
            if ticks == 0 then
              t == s.(added := s.added + [id], fired := s.fired + [Firing(id, s.now, s.now, s.now)])
            else
              && Added(s.q, t.q, id, ticks, k)
              && t == s.(added := s.added + [id], q := t.q, deadline := s.deadline[id := s.now + ticks])
  {
    k := 0;
    if ticks > 0 { k := AddMeaning(s.q, id, ticks); }
  }

  lemma NotYetDue(s: Clock, id: nat)
    requires Inv(s) && id in s.deadline
    ensures s.now < s.deadline[id]
  {
    assert id in Ids(s.q);
    var i :| 0 <= i < |s.q| && Ids(s.q)[i] == id;
    assert OnTime(s, i);
  }

  /** Announcing advances the clock.  Each timeout whose deadline has come is off the queue
      and has fired, recorded with that deadline; every other keeps its deadline. */
  lemma AnnounceOutcome(s: Clock, ticks: nat)
    requires Inv(s)
    ensures var t := Step(s, AnnounceTicks(ticks));
            && t.now == s.now + ticks && t.added == s.added && t.aborted == s.aborted
            && |s.fired| <= |t.fired| && t.fired[..|s.fired|] == s.fired
            && (forall id :: id in t.deadline <==> id in s.deadline && t.now < s.deadline[id])
            && (forall id :: id in t.deadline ==> t.deadline[id] == s.deadline[id])
            && (forall j :: |s.fired| <= j < |t.fired| ==>
                  var f := t.fired[j];
                  && f.id in s.deadline && f == Firing(f.id, s.deadline[f.id], s.now, t.now)
                  && s.now < f.deadline <= t.now)
            && (forall id :: id in s.deadline && s.deadline[id] <= t.now ==>
                  exists j :: |s.fired| <= j < |t.fired| && t.fired[j].id == id)
  {
    var t, e := Step(s, AnnounceTicks(ticks)), Announce(s.q, ticks).1;
    AnnounceKeeps(s, ticks);
    forall j | |s.fired| <= j < |t.fired|
      ensures var f := t.fired[j];
              f.id in s.deadline && f == Firing(f.id, s.deadline[f.id], s.now, t.now) && s.now < f.deadline <= t.now
    {
      var id := e[j - |s.fired|];
      assert id in e;
      NotYetDue(s, id);
      assert t.fired[j] == Stamp(e, s.deadline, s.now, s.now + ticks)[j - |s.fired|];
    }
    forall id | id in s.deadline && s.deadline[id] <= t.now
      ensures exists j :: |s.fired| <= j < |t.fired| && t.fired[j].id == id
    {
      assert id in e;
      var i :| 0 <= i < |e| && e[i] == id;
      assert t.fired[|s.fired| + i].id == id;
    }
  }

  /** Aborting takes the timeout off the queue; all others keep their deadlines. */
  lemma AbortOutcome(s: Clock, i: nat)
    requires i < |s.q|
    ensures var t, id := Step(s, AbortTimeout(i)), s.q[i].id;
            && t == s.(q := t.q, deadline := t.deadline, aborted := s.aborted + [id])
            && Ids(t.q) == Ids(s.q)[..i] + Ids(s.q)[i + 1..]
            && (forall x :: x in t.deadline <==> x in s.deadline && x != id)
            && (forall x :: x in t.deadline ==> t.deadline[x] == s.deadline[x])
  {
    AbortMeaning(s.q, i);
  }

  // ---------- in place ----------

  lemma EnqueueAt(q: seq<Timeout>, i: nat, id: nat, delta: nat)
    requires i < |q|
    ensures delta <= q[i].delta ==>
              Enqueue(q[i..], id, delta) == [Timeout(id, delta), q[i].(delta := q[i].delta - delta)] + q[i + 1..]
    ensures q[i].delta < delta ==>
              q[..i] + Enqueue(q[i..], id, delta) == q[..i + 1] + Enqueue(q[i + 1..], id, delta - q[i].delta)
  {
    assert q[i..][1..] == q[i + 1..] && q[..i + 1] == q[..i] + [q[i]];
  }

  class TimeoutQueue {
    var now: nat
    var q: seq<Timeout>
    ghost var deadline: map<nat, nat>
    ghost var added: seq<nat>
    ghost var fired: seq<Firing>
    ghost var aborted: seq<nat>

    ghost function State(): Clock
      reads this
    {
      Clock(now, q, deadline, added, fired, aborted)
    }

    ghost predicate Valid()
      reads this
    {
      Inv(State()) && Punctual(fired)
    }

    constructor ()
      ensures Valid() && State() == Start
    {
      now, q, deadline, added, fired, aborted := 0, [], map[], [], [], [];
    }

    /** `_add_timeout` of an inactive timeout: 0 ticks are handled at once; else the list walk
        gives the newcomer its ticks and changes nobody else's remaining time. */
    method AddTimeout(id: nat, ticks: nat) returns (handled: bool, ghost k: nat)
      requires Valid() && id !in deadline
      modifies this
      ensures Valid() && State() == Step(old(State()), Event.AddTimeout(id, ticks))
      ensures handled <==> ticks == 0
      ensures if handled then q == old(q) else Added(old(q), q, id, ticks, k)
    {
      ghost var goal := Step(State(), Event.AddTimeout(id, ticks));
      StepKeeps(State(), Event.AddTimeout(id, ticks));
      added := added + [id];
      handled := ticks == 0;
      k := 0;
      if handled {
        fired := fired + [Firing(id, now, now, now)];
      } else {
        Walk(id, ticks);
        deadline := deadline[id := now + ticks];
      }
      assert State() == goal;
      if !handled { k := AddMeaning(old(q), id, ticks); }
    }

    method Walk(id: nat, ticks: nat)
      modifies `q
      ensures q == Enqueue(old(q), id, ticks)
    {
      ghost var goal := Enqueue(q, id, ticks);
      var delta: nat, i := ticks, 0;
      while i < |q|
        invariant 0 <= i <= |q| && q == old(q)
        invariant goal == q[..i] + Enqueue(q[i..], id, delta)
      {
        EnqueueAt(q, i, id, delta);
        if delta <= q[i].delta {
          q := q[..i] + ([Timeout(id, delta), q[i].(delta := q[i].delta - delta)] + q[i + 1..]);
          assert q == goal;
          return;
        }
        delta := delta - q[i].delta;
        i := i + 1;
      }
      assert q[..i] == q && q[i..] == [];
      q := q + [Timeout(id, delta)];
    }

    /** `_abort_timeout` on the active entry `i`: the others keep their remaining times. */
    method AbortTimeout(i: nat)
      requires Valid() && i < |q|
      modifies this
      ensures Valid() && State() == Step(old(State()), Event.AbortTimeout(i)) && |q| == |old(q)| - 1
      ensures forall j :: 0 <= j < i ==> q[j].id == old(q)[j].id && Left(q, j) == Left(old(q), j)
      ensures forall j :: i <= j < |q| ==> q[j].id == old(q)[j + 1].id && Left(q, j) == Left(old(q), j + 1)
    {
      AbortMeaning(q, i);
      ghost var goal := Step(State(), Event.AbortTimeout(i));
      StepKeeps(State(), Event.AbortTimeout(i));
      deadline, aborted := deadline - {q[i].id}, aborted + [q[i].id];
      if i + 1 < |q| {
        q := q[i + 1 := q[i + 1].(delta := q[i + 1].delta + q[i].delta)];
      }
      q := RemoveAt(q, i);
      assert State() == goal;
    }

    /** `_nano_sys_clock_tick_announce`: the clock advances and exactly the timeouts whose
        deadline has come expire. */
    method AnnounceTicks(ticks: nat) returns (expired: seq<nat>)
      requires Valid()
      modifies this
      ensures Valid() && State() == Step(old(State()), Event.AnnounceTicks(ticks))
      ensures forall id :: id in expired <==> id in old(deadline) && old(deadline)[id] <= now
    {
      ghost var goal, before := Step(State(), Event.AnnounceTicks(ticks)), now;
      StepKeeps(State(), Event.AnnounceTicks(ticks));
      AnnounceKeeps(State(), ticks);
      now := now + ticks;
      expired := HandleTimeouts(ticks);
      fired := fired + Stamp(expired, deadline, before, now);
      deadline := map id | id in deadline && id !in expired :: deadline[id];
      assert State() == goal;
    }

    /** The loop of `handle_timeouts`, with its signed tick count. */
    method HandleTimeouts(announced: nat) returns (expired: seq<nat>)
      modifies `q
      ensures (q, expired) == Announce(old(q), announced)
    {
      expired := [];
      var ticks: int := announced;
      var i := 0;
      ghost var goal := Announce(q, ticks);
      assert goal.1 + expired == goal.1;
      while i < |q|
        invariant i == 0 && 0 <= ticks
        invariant goal == (Announce(q, ticks).0, Announce(q, ticks).1 + expired)
        decreases |q|
      {
        if q[0].delta <= ticks {
          ghost var e := Announce(q[1..], ticks - q[0].delta).1;
          assert (e + [q[0].id]) + expired == e + ([q[0].id] + expired);
        } else {
          assert Announce(q, ticks).1 + expired == expired;
        }
        var t := q[i];
        var left := if t.delta < ticks then 0 else t.delta - ticks;
        ticks := ticks - t.delta;
        if left == 0 {
          assert RemoveAt(q, i) == q[1..];
          q := RemoveAt(q, i);
          expired := [t.id] + expired;
        } else {
          q := q[i := t.(delta := left)];
          if ticks <= 0 {
            break;
          }
          i := i + 1;
        }
      }
      assert [] + expired == expired;
    }

    /** `_timeout_remaining_get`: the ticks left of an active timeout, in milliseconds by the
        precise or the simple formula; 0 for an inactive one. */
    method Remaining(id: nat, tps: nat, precise: bool) returns (ms: nat)
      requires Valid() && tps > 0
      ensures id !in deadline ==> ms == 0
      ensures id in deadline ==>
                now < deadline[id] &&
                ms == if precise then PreciseMs(deadline[id] - now, tps) else SimpleMs(deadline[id] - now, tps)
      ensures forall i :: 0 <= i < |q| && q[i].id == id ==>
                ms == if precise then PreciseMs(Left(q, i), tps) else SimpleMs(Left(q, i), tps)
    {
      var ticks, k := 0, 0;
      while k < |q| && q[k].id != id
        invariant 0 <= k <= |q| && (forall j :: 0 <= j < k ==> q[j].id != id)
        invariant ticks == if k == 0 then 0 else Left(q, k - 1)
      {
        ticks := ticks + q[k].delta;
        k := k + 1;
      }
      if k == |q| {
        assert id !in Ids(q);
        return 0;
      }
      assert OnTime(State(), k);
      ticks := ticks + q[k].delta;
      assert forall i :: k < i < |q| ==> Ids(q)[k] != Ids(q)[i];
      assert Ids(q)[k] == id;
      ms := if precise then PreciseMs(ticks, tps) else SimpleMs(ticks, tps);
    }
  }
}
