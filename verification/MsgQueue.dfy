/** Message queues: a ring of fixed-size messages and one wait queue that readers and
    writers share. */
module MsgQueue {
  import opened PriorityList
  import opened RingView

  type Msg = seq<int>

  datatype Waiter = Reader(tid: nat, prio: int) | Writer(tid: nat, prio: int, msg: Msg)

  datatype Code = Ok | NoMsg | Again

  /** `Overwritten` is what happens if a put hands its message to a waiting writer or a get
      queues the buffer of a waiting reader: the code cannot tell the two apart. */
  datatype Outcome =
    | Sent(tid: nat, code: Code, msg: Msg)
    | Received(tid: nat, code: Code, msg: Msg)
    | Overwritten(tid: nat)

  /** A message that has left the queue: to a receiver, or purged. */
  datatype Fate = Fate(msg: Msg, delivered: bool)

  /** `accepted` is every message ever taken, and `gone` every one that has left, in order. */
  datatype Msgq = Msgq(max: nat, ring: seq<Msg>, waiters: seq<Waiter>,
                       accepted: seq<Msg>, gone: seq<Fate>, log: seq<Outcome>)

  function WaiterPrio(w: Waiter): int { w.prio }

  /** `_impl_k_msgq_put` up to its return or pend. */
  function PutCall(s: Msgq, tid: nat, prio: int, m: Msg, noWait: bool): Msgq {
    if |s.ring| < s.max then
      if s.waiters != [] then
        var w := s.waiters[0];
        s.(waiters := s.waiters[1..], accepted := s.accepted + [m], gone := s.gone + [Fate(m, true)],
           log := s.log + [if w.Reader? then Received(w.tid, Ok, m) else Overwritten(w.tid), Sent(tid, Ok, m)])
      else s.(ring := s.ring + [m], accepted := s.accepted + [m], log := s.log + [Sent(tid, Ok, m)])
    else if noWait then s.(log := s.log + [Sent(tid, NoMsg, m)])
    else s.(waiters := Insert(s.waiters, Writer(tid, prio, m), WaiterPrio))
  }

  /** `_impl_k_msgq_get` up to its return or pend. */
  function GetCall(s: Msgq, tid: nat, prio: int, noWait: bool): Msgq {
    if |s.ring| > 0 then
      var m := s.ring[0];
      var t := s.(ring := s.ring[1..], gone := s.gone + [Fate(m, true)]);
      if s.waiters != [] then
        var w := s.waiters[0];
        var x := if w.Writer? then w.msg else [];
        t.(ring := t.ring + [x], waiters := s.waiters[1..], accepted := s.accepted + [x],
           log := s.log + [if w.Writer? then Sent(w.tid, Ok, x) else Overwritten(w.tid), Received(tid, Ok, m)])
      else t.(log := s.log + [Received(tid, Ok, m)])
    else if noWait then s.(log := s.log + [Received(tid, NoMsg, [])])
    else s.(waiters := Insert(s.waiters, Reader(tid, prio), WaiterPrio))
  }

  function Failure(w: Waiter, code: Code): Outcome {
    if w.Reader? then Received(w.tid, code, []) else Sent(w.tid, code, w.msg)
  }

  function Failures(ws: seq<Waiter>): seq<Outcome> {
    if ws == [] then [] else [Failure(ws[0], NoMsg)] + Failures(ws[1..])
  }

  function Purged(ms: seq<Msg>): (r: seq<Fate>)
    ensures |r| == |ms| && forall i :: 0 <= i < |ms| ==> r[i] == Fate(ms[i], false)
  {
    seq(|ms|, i requires 0 <= i < |ms| => Fate(ms[i], false))
  }

  /** `_impl_k_msgq_purge`: every waiter fails, every stored message is dropped. */
  function PurgeCall(s: Msgq): Msgq {
    s.(ring := [], waiters := [], gone := s.gone + Purged(s.ring), log := s.log + Failures(s.waiters))
  }

  function TimeoutCall(s: Msgq, i: nat): Msgq
    requires i < |s.waiters|
  {
    s.(waiters := RemoveAt(s.waiters, i), log := s.log + [Failure(s.waiters[i], Again)])
  }

  /** Readers wait only at an empty ring, writers only at a full one. */
  ghost predicate Waiting(s: Msgq) {
    && |s.ring| <= s.max
    && (forall i :: 0 <= i < |s.waiters| ==> if s.waiters[i].Reader? then s.ring == [] else |s.ring| == s.max)
  }

  ghost predicate NoOverwrite(log: seq<Outcome>) {
    forall i :: 0 <= i < |log| ==> !log[i].Overwritten?
  }

  function Messages(gone: seq<Fate>): (r: seq<Msg>)
    ensures |r| == |gone| && forall i :: 0 <= i < |gone| ==> r[i] == gone[i].msg
  {
    seq(|gone|, i requires 0 <= i < |gone| => gone[i].msg)
  }

  /** Every message taken, in order, is gone or in the ring. */
  ghost predicate Fifo(s: Msgq) { s.accepted == Messages(s.gone) + s.ring }

  ghost predicate Inv(s: Msgq) {
    Waiting(s) && Sorted(s.waiters, WaiterPrio) && Fifo(s) && NoOverwrite(s.log)
  }

  datatype Event =
    | Put(tid: nat, prio: int, m: Msg, noWait: bool)
    | Get(tid: nat, prio: int, noWait: bool)
    | Purge
    | WaiterTimeout(i: nat)

  predicate Enabled(s: Msgq, e: Event) { e.WaiterTimeout? ==> e.i < |s.waiters| }

  function Step(s: Msgq, e: Event): Msgq
    requires Enabled(s, e)
  {
    match e
    case Put(tid, prio, m, noWait) => PutCall(s, tid, prio, m, noWait)
    case Get(tid, prio, noWait) => GetCall(s, tid, prio, noWait)
    case Purge => PurgeCall(s)
    case WaiterTimeout(i) => TimeoutCall(s, i)
  }

  // ---------- order ----------

  lemma PutFifo(s: Msgq, tid: nat, prio: int, m: Msg, noWait: bool)
    requires Fifo(s) && Waiting(s)
    ensures Fifo(PutCall(s, tid, prio, m, noWait))
  {
    var g := Messages(s.gone);
    if |s.ring| < s.max {
      if s.waiters != [] {
        assert s.waiters[0].Reader?;
        assert Messages(s.gone + [Fate(m, true)]) == g + [m];
        assert (g + []) + [m] == (g + [m]) + [];
      } else {
        assert (g + s.ring) + [m] == g + (s.ring + [m]);
      }
    }
  }

  lemma GetFifo(s: Msgq, tid: nat, prio: int, noWait: bool)
    requires Fifo(s)
    ensures Fifo(GetCall(s, tid, prio, noWait))
  {
    if |s.ring| > 0 {
      var g, m := Messages(s.gone), s.ring[0];
      assert Messages(s.gone + [Fate(m, true)]) == g + [m];
      assert g + s.ring == (g + [m]) + s.ring[1..];
      if s.waiters != [] {
        var x := if s.waiters[0].Writer? then s.waiters[0].msg else [];
        assert ((g + [m]) + s.ring[1..]) + [x] == (g + [m]) + (s.ring[1..] + [x]);
      }
    }
  }

  lemma PurgeFifo(s: Msgq)
    requires Fifo(s)
    ensures Fifo(PurgeCall(s))
  {
    assert Messages(s.gone + Purged(s.ring)) == Messages(s.gone) + s.ring;
  }

  // ---------- waiters ----------

  lemma PutKeeps(s: Msgq, tid: nat, prio: int, m: Msg, noWait: bool)
    requires Inv(s)
    ensures Inv(PutCall(s, tid, prio, m, noWait))
  {
    PutFifo(s, tid, prio, m, noWait);
    InsertKeepsSorted(s.waiters, Writer(tid, prio, m), WaiterPrio);
  }

  lemma GetKeeps(s: Msgq, tid: nat, prio: int, noWait: bool)
    requires Inv(s)
    ensures Inv(GetCall(s, tid, prio, noWait))
  {
    GetFifo(s, tid, prio, noWait);
    InsertKeepsSorted(s.waiters, Reader(tid, prio), WaiterPrio);
  }

  lemma {:induction false} FailuresFine(ws: seq<Waiter>)
    ensures |Failures(ws)| == |ws| && NoOverwrite(Failures(ws))
  {
    if ws != [] { FailuresFine(ws[1..]); }
  }

  lemma PurgeKeeps(s: Msgq)
    requires Inv(s)
    ensures Inv(PurgeCall(s))
  {
    PurgeFifo(s);
    FailuresFine(s.waiters);
  }

  lemma StepKeeps(s: Msgq, e: Event)
    requires Inv(s) && Enabled(s, e)
    ensures Inv(Step(s, e)) && Step(s, e).max == s.max
  {
    match e
    case Put(tid, prio, m, noWait) => PutKeeps(s, tid, prio, m, noWait);
    case Get(tid, prio, noWait) => GetKeeps(s, tid, prio, noWait);
    case Purge => PurgeKeeps(s);
    case WaiterTimeout(i) => RemoveKeepsSorted(s.waiters, i, WaiterPrio);
  }

  ghost predicate Follows(s: Msgq, e: Event, t: Msgq) { Enabled(s, e) && t == Step(s, e) }

  ghost predicate IsRun(states: seq<Msgq>, events: seq<Event>) {
    && |states| == |events| + 1
    && forall i {:trigger events[i]} :: 0 <= i < |events| ==> Follows(states[i], events[i], states[i + 1])
  }

  function Init(max: nat): Msgq { Msgq(max, [], [], [], [], []) }

  lemma Taken(states: seq<Msgq>, events: seq<Event>, i: nat, s: Msgq, e: Event, t: Msgq)
    requires IsRun(states, events) && i < |events| && s == states[i] && e == events[i] && t == states[i + 1]
    ensures Follows(s, e, t)
  {
  }

  /** Over every run: the messages taken are, in order, those that left the queue, delivered
      or purged, and then the ring; readers wait only at an empty ring and writers at a full
      one, so that with room for a message they never wait together; no call ever touches
      the wrong kind of waiter. */
  lemma {:induction false} EveryRunIsFifo(max: nat, states: seq<Msgq>, events: seq<Event>, n: nat)
    requires IsRun(states, events) && states[0] == Init(max) && n < |states|
    ensures var s := states[n];
            && Inv(s) && s.max == max
            && (forall i, j :: 0 <= i < j < |s.waiters| ==> s.waiters[i].prio <= s.waiters[j].prio)
            && (max > 0 ==>
                  (forall i :: 0 <= i < |s.waiters| ==> s.waiters[i].Reader?) ||
                  (forall i :: 0 <= i < |s.waiters| ==> s.waiters[i].Writer?))
    decreases n
  {
    if n > 0 {
      var s, e, t := states[n - 1], events[n - 1], states[n];
      Taken(states, events, n - 1, s, e, t);
      EveryRunIsFifo(max, states, events, n - 1);
      StepKeeps(s, e);
    }
    forall i, j | 0 <= i < j < |states[n].waiters| ensures states[n].waiters[i].prio <= states[n].waiters[j].prio {
      assert WaiterPrio(states[n].waiters[i]) <= WaiterPrio(states[n].waiters[j]);
    }
  }

  /** A queue for no messages lets a reader and a writer wait together for ever. */
  lemma NoRoomMixesWaiters(m: Msg)
    ensures var s := PutCall(GetCall(Init(0), 1, 5, false), 2, 5, m, false);
            s.waiters == [Reader(1, 5), Writer(2, 5, m)]
  {
    var s := GetCall(Init(0), 1, 5, false);
    assert s.waiters == [Reader(1, 5)];
  }

  // ---------- what callers see ----------

  /** The messages `of` picks out of the outcomes, in order. */
  function Collect(log: seq<Outcome>, of: Outcome -> seq<Msg>): seq<Msg> {
    if log == [] then [] else Collect(log[..|log| - 1], of) + of(log[|log| - 1])
  }

  /** What a successful receive returned. */
  function Receipt(o: Outcome): seq<Msg> { if o.Received? && o.code == Ok then [o.msg] else [] }

  /** What a successful send gave. */
  function Gift(o: Outcome): seq<Msg> { if o.Sent? && o.code == Ok then [o.msg] else [] }

  /** The messages receivers were handed. */
  function Delivered(gone: seq<Fate>): seq<Msg> {
    if gone == [] then []
    else Delivered(gone[..|gone| - 1]) + if gone[|gone| - 1].delivered then [gone[|gone| - 1].msg] else []
  }

  lemma CollectPush(log: seq<Outcome>, o: Outcome, of: Outcome -> seq<Msg>)
    ensures Collect(log + [o], of) == Collect(log, of) + of(o)
  {
    assert (log + [o])[..|log|] == log;
  }

  lemma CollectPair(log: seq<Outcome>, a: Outcome, b: Outcome, of: Outcome -> seq<Msg>)
    ensures Collect(log + [a, b], of) == Collect(log, of) + of(a) + of(b)
  {
    assert log + [a, b] == (log + [a]) + [b];
    CollectPush(log + [a], b, of);
    CollectPush(log, a, of);
  }

  /** A send and a receive that succeeded, in either order. */
  lemma SwapReports(log: seq<Outcome>, a: Outcome, b: Outcome)
    requires a.Sent? && a.code == Ok && b.Received? && b.code == Ok
    ensures Collect(log + [a, b], Receipt) == Collect(log, Receipt) + [b.msg]
    ensures Collect(log + [a, b], Gift) == Collect(log, Gift) + [a.msg]
  {
    CollectPair(log, a, b, Receipt);
    CollectPair(log, a, b, Gift);
  }

  lemma HandReports(log: seq<Outcome>, a: Outcome, b: Outcome)
    requires a.Received? && a.code == Ok && b.Sent? && b.code == Ok
    ensures Collect(log + [a, b], Receipt) == Collect(log, Receipt) + [a.msg]
    ensures Collect(log + [a, b], Gift) == Collect(log, Gift) + [b.msg]
  {
    CollectPair(log, a, b, Receipt);
    CollectPair(log, a, b, Gift);
  }

  lemma {:induction false} FailuresSilent(log: seq<Outcome>, ws: seq<Waiter>, of: Outcome -> seq<Msg>)
    requires of == Receipt || of == Gift
    ensures Collect(log + Failures(ws), of) == Collect(log, of)
    decreases |ws|
  {
    if ws == [] {
      assert log + Failures(ws) == log;
    } else {
      assert log + Failures(ws) == (log + [Failure(ws[0], NoMsg)]) + Failures(ws[1..]);
      FailuresSilent(log + [Failure(ws[0], NoMsg)], ws[1..], of);
      CollectPush(log, Failure(ws[0], NoMsg), of);
    }
  }

  lemma DeliveredPush(gone: seq<Fate>, m: Msg)
    ensures Delivered(gone + [Fate(m, true)]) == Delivered(gone) + [m]
  {
    assert (gone + [Fate(m, true)])[..|gone|] == gone;
  }

  lemma {:induction false} PurgedSilent(gone: seq<Fate>, ms: seq<Msg>)
    ensures Delivered(gone + Purged(ms)) == Delivered(gone)
    decreases |ms|
  {
    if ms == [] {
      assert gone + Purged(ms) == gone;
    } else {
      var k := |ms| - 1;
      assert gone + Purged(ms) == (gone + Purged(ms[..k])) + [Fate(ms[k], false)];
      assert ((gone + Purged(ms[..k])) + [Fate(ms[k], false)])[..|gone| + k] == gone + Purged(ms[..k]);
      PurgedSilent(gone, ms[..k]);
    }
  }

  /** Receivers have what was delivered and senders gave what was taken, in order. */
  ghost predicate Reported(s: Msgq) {
    Collect(s.log, Receipt) == Delivered(s.gone) && Collect(s.log, Gift) == s.accepted
  }

  lemma PutReports(s: Msgq, tid: nat, prio: int, m: Msg, noWait: bool)
    requires Waiting(s) && Reported(s)
    ensures Reported(PutCall(s, tid, prio, m, noWait))
  {
    CollectPush(s.log, Sent(tid, Ok, m), Receipt);
    CollectPush(s.log, Sent(tid, Ok, m), Gift);
    CollectPush(s.log, Sent(tid, NoMsg, m), Receipt);
    CollectPush(s.log, Sent(tid, NoMsg, m), Gift);
    if |s.ring| < s.max && s.waiters != [] {
      var w := s.waiters[0];
      assert w.Reader?;
      HandReports(s.log, Received(w.tid, Ok, m), Sent(tid, Ok, m));
      DeliveredPush(s.gone, m);
    }
  }

  lemma GetReports(s: Msgq, tid: nat, prio: int, noWait: bool)
    requires Waiting(s) && Reported(s)
    ensures Reported(GetCall(s, tid, prio, noWait))
  {
    if |s.ring| == 0 {
      CollectPush(s.log, Received(tid, NoMsg, []), Receipt);
      CollectPush(s.log, Received(tid, NoMsg, []), Gift);
    } else {
      var m := s.ring[0];
      DeliveredPush(s.gone, m);
      if s.waiters == [] {
        CollectPush(s.log, Received(tid, Ok, m), Receipt);
        CollectPush(s.log, Received(tid, Ok, m), Gift);
      } else {
        var w := s.waiters[0];
        assert w.Writer?;
        SwapReports(s.log, Sent(w.tid, Ok, w.msg), Received(tid, Ok, m));
      }
    }
  }

  lemma FollowsReports(s: Msgq, e: Event, t: Msgq)
    requires Follows(s, e, t) && Waiting(s) && Reported(s)
    ensures Reported(t)
  {
    match e
    case Put(tid, prio, m, noWait) => PutReports(s, tid, prio, m, noWait);
    case Get(tid, prio, noWait) => GetReports(s, tid, prio, noWait);
    case Purge =>
      FailuresSilent(s.log, s.waiters, Receipt);
      FailuresSilent(s.log, s.waiters, Gift);
      PurgedSilent(s.gone, s.ring);
    case WaiterTimeout(i) =>
      CollectPush(s.log, Failure(s.waiters[i], Again), Receipt);
      CollectPush(s.log, Failure(s.waiters[i], Again), Gift);
  }

  /** Over every run, what successful receives returned is exactly what was delivered and
      what successful sends gave is exactly what was taken, both in order. */
  lemma {:induction false} EveryDeliveryIsReceived(max: nat, states: seq<Msgq>, events: seq<Event>, n: nat)
    requires IsRun(states, events) && states[0] == Init(max) && n < |states|
    ensures Reported(states[n])
    decreases n
  {
    if n > 0 {
      var s, e, t := states[n - 1], events[n - 1], states[n];
      Taken(states, events, n - 1, s, e, t);
      EveryRunIsFifo(max, states, events, n - 1);
      EveryDeliveryIsReceived(max, states, events, n - 1);
      FollowsReports(s, e, t);
    }
  }

  // ---------- what each call does ----------

  ghost predicate Queues(q: seq<Waiter>, r: seq<Waiter>, w: Waiter) { Joins(q, r, w, (x: Waiter) => x.prio) }

  /** A put succeeds exactly when the ring has room: the message goes to the first waiter, a
      reader, or to the end of the ring.  Otherwise it fails at once or waits, as asked. */
  lemma PutOutcome(s: Msgq, tid: nat, prio: int, m: Msg, noWait: bool, t: Msgq)
    requires Waiting(s) && Follows(s, Put(tid, prio, m, noWait), t)
    ensures if |s.ring| == s.max then
              if noWait then t == s.(log := s.log + [Sent(tid, NoMsg, m)])
              else Queues(s.waiters, t.waiters, Writer(tid, prio, m)) && t == s.(waiters := t.waiters)
            else if s.waiters == [] then
              t == s.(ring := s.ring + [m], accepted := s.accepted + [m], log := s.log + [Sent(tid, Ok, m)])
            else
              && s.waiters[0].Reader?
              && t == s.(waiters := s.waiters[1..], accepted := s.accepted + [m], gone := s.gone + [Fate(m, true)],
                         log := s.log + [Received(s.waiters[0].tid, Ok, m), Sent(tid, Ok, m)])
  {
    InsertJoins(s.waiters, Writer(tid, prio, m), WaiterPrio, (x: Waiter) => x.prio);
  }

  /** A get succeeds exactly when the ring is not empty, with its first message; the first
      waiter, a writer, then succeeds too and its message ends the ring. */
  lemma GetOutcome(s: Msgq, tid: nat, prio: int, noWait: bool, t: Msgq)
    requires Waiting(s) && Follows(s, Get(tid, prio, noWait), t)
    ensures if s.ring == [] then
              if noWait then t == s.(log := s.log + [Received(tid, NoMsg, [])])
              else Queues(s.waiters, t.waiters, Reader(tid, prio)) && t == s.(waiters := t.waiters)
            else
              var m, gone := s.ring[0], s.gone + [Fate(s.ring[0], true)];
              if s.waiters == [] then
                t == s.(ring := s.ring[1..], gone := gone, log := s.log + [Received(tid, Ok, m)])
              else
                && s.waiters[0].Writer?
                && var w := s.waiters[0];
                   t == s.(ring := s.ring[1..] + [w.msg], gone := gone, waiters := s.waiters[1..],
                           accepted := s.accepted + [w.msg],
                           log := s.log + [Sent(w.tid, Ok, w.msg), Received(tid, Ok, m)])
  {
    InsertJoins(s.waiters, Reader(tid, prio), WaiterPrio, (x: Waiter) => x.prio);
  }

  /** `w`'s call came back with `code` and moved nothing. */
  ghost predicate Fails(w: Waiter, code: Code, o: Outcome) {
    match w
    case Reader(tid, _) => o == Received(tid, code, [])
    case Writer(tid, _, m) => o == Sent(tid, code, m)
  }

  lemma {:induction false} FailuresAt(ws: seq<Waiter>, i: nat)
    requires i < |ws|
    ensures |Failures(ws)| == |ws| && Fails(ws[i], NoMsg, Failures(ws)[i])
  {
    if i == 0 { FailuresFine(ws[1..]); } else { FailuresAt(ws[1..], i - 1); }
  }

  /** A purge empties the ring and the wait queue; the waiters fail with -ENOMSG in order. */
  lemma PurgeOutcome(s: Msgq, t: Msgq)
    requires Follows(s, Purge, t)
    ensures t.max == s.max && t.ring == [] && t.waiters == [] && t.accepted == s.accepted
    ensures |t.gone| == |s.gone| + |s.ring| && t.gone[..|s.gone|] == s.gone
    ensures forall i :: 0 <= i < |s.ring| ==> t.gone[|s.gone| + i] == Fate(s.ring[i], false)
    ensures |t.log| == |s.log| + |s.waiters| && t.log[..|s.log|] == s.log
    ensures forall i :: 0 <= i < |s.waiters| ==> Fails(s.waiters[i], NoMsg, t.log[|s.log| + i])
  {
    FailuresFine(s.waiters);
    forall i | 0 <= i < |s.waiters| ensures Fails(s.waiters[i], NoMsg, t.log[|s.log| + i]) {
      FailuresAt(s.waiters, i);
    }
  }

  /** A waiter that times out leaves with -EAGAIN and nothing else happens. */
  lemma TimeoutOutcome(s: Msgq, i: nat, t: Msgq)
    requires Follows(s, WaiterTimeout(i), t)
    ensures t == s.(waiters := s.waiters[..i] + s.waiters[i + 1..], log := t.log)
    ensures |t.log| == |s.log| + 1 && t.log[..|s.log|] == s.log && Fails(s.waiters[i], Again, t.log[|s.log|])
  {
  }

  // ---------- every call is answered ----------

  datatype Call = PutOf(prio: int, msg: Msg, noWait: bool) | GetOf(prio: int, noWait: bool)

  /** The calls a thread made, in order. */
  function Calls(events: seq<Event>, t: nat): seq<Call> {
    if events == [] then [] else Calls(events[..|events| - 1], t) + CallBy(events[|events| - 1], t)
  }

  function CallBy(e: Event, t: nat): seq<Call> {
    match e
    case Put(tid, prio, m, noWait) => if tid == t then [PutOf(prio, m, noWait)] else []
    case Get(tid, prio, noWait) => if tid == t then [GetOf(prio, noWait)] else []
    case Purge => []
    case WaiterTimeout(_) => []
  }

  /** What the thread's calls came back with, in order. */
  function Answers(log: seq<Outcome>, t: nat): seq<Outcome> {
    if log == [] then [] else Answers(log[..|log| - 1], t) + AnswerTo(log[|log| - 1], t)
  }

  function AnswerTo(o: Outcome, t: nat): seq<Outcome> { if o.tid == t then [o] else [] }

  /** The calls it still waits in. */
  function Pending(ws: seq<Waiter>, t: nat): seq<Call> {
    if ws == [] then [] else PendingIn(ws[0], t) + Pending(ws[1..], t)
  }

  function PendingIn(w: Waiter, t: nat): seq<Call> {
    if w.tid != t then []
    else match w case Reader(_, prio) => [GetOf(prio, false)] case Writer(_, prio, m) => [PutOf(prio, m, false)]
  }

  /** The answer is to a call of its kind, for its message; one that may not wait does not
      time out, and nothing was received unless the call succeeded. */
  ghost predicate Answered(c: Call, o: Outcome) {
    match c
    case PutOf(_, m, noWait) => o.Sent? && o.msg == m && (noWait ==> o.code != Again)
    case GetOf(_, noWait) => o.Received? && (noWait ==> o.code != Again) && (o.code != Ok ==> o.msg == [])
  }

  /** The thread's calls so far, in order, have been answered, except for at most one, which
      waits. */
  ghost predicate Kept(log: seq<Outcome>, ws: seq<Waiter>, calls: seq<Call>, t: nat) {
    var a, p := Answers(log, t), Pending(ws, t);
    && |p| <= 1 && |calls| == |a| + |p| && calls[|a|..] == p
    && forall i :: 0 <= i < |a| ==> Answered(calls[i], a[i])
  }

  lemma AnswersPush(log: seq<Outcome>, o: Outcome, t: nat)
    ensures Answers(log + [o], t) == Answers(log, t) + AnswerTo(o, t)
  {
    assert (log + [o])[..|log|] == log;
  }

  lemma {:induction false} PendingConcat(a: seq<Waiter>, b: seq<Waiter>, t: nat)
    ensures Pending(a + b, t) == Pending(a, t) + Pending(b, t)
  {
    if a == [] {
      assert a + b == b;
    } else {
      assert (a + b)[1..] == a[1..] + b;
      PendingConcat(a[1..], b, t);
      Regroup(PendingIn(a[0], t), Pending(a[1..], t), Pending(b, t));
    }
  }

  /** With one call of the thread at most waiting, `w` is that call or takes no part. */
  lemma PendingAround(a: seq<Waiter>, w: Waiter, b: seq<Waiter>, t: nat)
    requires |Pending(a + [w] + b, t)| <= 1 || Pending(a + b, t) == []
    ensures Pending(a + [w] + b, t) == if w.tid == t then PendingIn(w, t) else Pending(a + b, t)
    ensures w.tid == t ==> Pending(a + b, t) == []
  {
    PendingConcat(a, b, t);
    PendingConcat(a + [w], b, t);
    PendingConcat(a, [w], t);
    assert Pending([w], t) == PendingIn(w, t);
  }

  lemma LastAnswered(calls: seq<Call>, a: seq<Outcome>, o: Outcome)
    requires |calls| == |a| + 1 && Answered(calls[|a|], o)
    requires forall i :: 0 <= i < |a| ==> Answered(calls[i], a[i])
    ensures var b := a + [o]; calls[|b|..] == [] && forall i :: 0 <= i < |b| ==> Answered(calls[i], b[i])
  {
  }

  /** A waiter's call comes back. */
  lemma WaiterAnswered(log: seq<Outcome>, ws: seq<Waiter>, i: nat, o: Outcome, calls: seq<Call>, t: nat)
    requires Kept(log, ws, calls, t) && i < |ws| && o.tid == ws[i].tid
    requires forall c :: c in PendingIn(ws[i], t) ==> Answered(c, o)
    ensures Kept(log + [o], RemoveAt(ws, i), calls, t)
  {
    SplitAt(ws, i);
    PendingAround(ws[..i], ws[i], ws[i + 1..], t);
    AnswersPush(log, o, t);
    if o.tid == t {
      assert calls[|Answers(log, t)|] == calls[|Answers(log, t)|..][0] == PendingIn(ws[i], t)[0];
      LastAnswered(calls, Answers(log, t), o);
    } else {
      assert Answers(log, t) + [] == Answers(log, t);
    }
  }

  /** A call comes back at once. */
  lemma CallerAnswered(log: seq<Outcome>, ws: seq<Waiter>, c: Call, o: Outcome, calls: seq<Call>, t: nat)
    requires Kept(log, ws, calls, t) && (o.tid == t ==> Answered(c, o) && Pending(ws, t) == [])
    ensures Kept(log + [o], ws, calls + if o.tid == t then [c] else [], t)
  {
    AnswersPush(log, o, t);
  }

  lemma CallerWaits(log: seq<Outcome>, ws: seq<Waiter>, w: Waiter, calls: seq<Call>, t: nat)
    requires Kept(log, ws, calls, t) && (w.tid == t ==> Pending(ws, t) == [])
    ensures Kept(log, Insert(ws, w, WaiterPrio), calls + PendingIn(w, t), t)
  {
    InsertPending(ws, w, t);
    if w.tid != t { assert calls + PendingIn(w, t) == calls; }
  }

  lemma InsertPending(ws: seq<Waiter>, w: Waiter, t: nat)
    requires w.tid == t ==> Pending(ws, t) == []
    ensures Pending(Insert(ws, w, WaiterPrio), t) == if w.tid == t then PendingIn(w, t) else Pending(ws, t)
  {
    var k := Place(ws, w, WaiterPrio, 0);
    var a, b := ws[..k], ws[k..];
    assert ws == a + b;
    if w.tid == t {
      PendingAround(a, w, b, t);
    } else {
      PendingConcat(a, b, t);
      PendingConcat(a + [w], b, t);
      PendingConcat(a, [w], t);
      assert Pending([w], t) == [] && Pending(a, t) + [] == Pending(a, t);
    }
  }

  /** A waiting thread makes no calls. */
  ghost predicate Free(s: Msgq, e: Event) { e.Put? || e.Get? ==> Pending(s.waiters, e.tid) == [] }

  lemma {:induction false} AllAnswered(log: seq<Outcome>, ws: seq<Waiter>, calls: seq<Call>, t: nat)
    requires Kept(log, ws, calls, t)
    ensures Kept(log + Failures(ws), [], calls, t)
    decreases |ws|
  {
    if ws == [] {
      assert log + Failures(ws) == log;
    } else {
      var o := Failure(ws[0], NoMsg);
      assert RemoveAt(ws, 0) == ws[1..];
      Regroup(log, [o], Failures(ws[1..]));
      WaiterAnswered(log, ws, 0, o, calls, t);
      AllAnswered(log + [o], ws[1..], calls, t);
    }
  }

  lemma PutAnswered(s: Msgq, tid: nat, prio: int, m: Msg, noWait: bool, calls: seq<Call>, t: nat)
    requires Waiting(s) && Free(s, Put(tid, prio, m, noWait)) && Kept(s.log, s.waiters, calls, t)
    ensures var u := PutCall(s, tid, prio, m, noWait);
            Kept(u.log, u.waiters, calls + CallBy(Put(tid, prio, m, noWait), t), t)
  {
    var c := PutOf(prio, m, noWait);
    if |s.ring| < s.max {
      if s.waiters == [] {
        CallerAnswered(s.log, [], c, Sent(tid, Ok, m), calls, t);
      } else {
        var o := Received(s.waiters[0].tid, Ok, m);
        WaiterAnswered(s.log, s.waiters, 0, o, calls, t);
        assert RemoveAt(s.waiters, 0) == s.waiters[1..];
        CallerAnswered(s.log + [o], s.waiters[1..], c, Sent(tid, Ok, m), calls, t);
        assert s.log + [o, Sent(tid, Ok, m)] == (s.log + [o]) + [Sent(tid, Ok, m)];
      }
    } else if noWait {
      CallerAnswered(s.log, s.waiters, c, Sent(tid, NoMsg, m), calls, t);
    } else {
      CallerWaits(s.log, s.waiters, Writer(tid, prio, m), calls, t);
    }
  }

  lemma GetAnswered(s: Msgq, tid: nat, prio: int, noWait: bool, calls: seq<Call>, t: nat)
    requires Waiting(s) && Free(s, Get(tid, prio, noWait)) && Kept(s.log, s.waiters, calls, t)
    ensures var u := GetCall(s, tid, prio, noWait);
            Kept(u.log, u.waiters, calls + CallBy(Get(tid, prio, noWait), t), t)
  {
    var c := GetOf(prio, noWait);
    if |s.ring| > 0 {
      var own := Received(tid, Ok, s.ring[0]);
      if s.waiters == [] {
        CallerAnswered(s.log, [], c, own, calls, t);
      } else {
        var o := Sent(s.waiters[0].tid, Ok, s.waiters[0].msg);
        WaiterAnswered(s.log, s.waiters, 0, o, calls, t);
        assert RemoveAt(s.waiters, 0) == s.waiters[1..];
        CallerAnswered(s.log + [o], s.waiters[1..], c, own, calls, t);
        assert s.log + [o, own] == (s.log + [o]) + [own];
      }
    } else if noWait {
      CallerAnswered(s.log, s.waiters, c, Received(tid, NoMsg, []), calls, t);
    } else {
      CallerWaits(s.log, s.waiters, Reader(tid, prio), calls, t);
    }
  }

  lemma FollowsAnswered(s: Msgq, e: Event, u: Msgq, calls: seq<Call>, t: nat)
    requires Waiting(s) && Follows(s, e, u) && Free(s, e) && Kept(s.log, s.waiters, calls, t)
    ensures Kept(u.log, u.waiters, calls + CallBy(e, t), t)
  {
    assert calls + [] == calls;
    match e
    case Put(tid, prio, m, noWait) => PutAnswered(s, tid, prio, m, noWait, calls, t);
    case Get(tid, prio, noWait) => GetAnswered(s, tid, prio, noWait, calls, t);
    case Purge => AllAnswered(s.log, s.waiters, calls, t);
    case WaiterTimeout(i) => WaiterAnswered(s.log, s.waiters, i, Failure(s.waiters[i], Again), calls, t);
  }

  /** Over every run in which a waiting thread makes no calls, every thread's calls are
      answered in order, each by an answer of its kind and for its message, except for at
      most one, in which the thread waits. */
  lemma {:induction false} EveryCallIsAnswered(max: nat, states: seq<Msgq>, events: seq<Event>, n: nat, t: nat)
    requires IsRun(states, events) && states[0] == Init(max) && n < |states|
    requires forall i {:trigger events[i]} :: 0 <= i < |events| ==> Free(states[i], events[i])
    ensures Kept(states[n].log, states[n].waiters, Calls(events[..n], t), t)
    decreases n
  {
    if n > 0 {
      var s, e, u := states[n - 1], events[n - 1], states[n];
      Taken(states, events, n - 1, s, e, u);
      EveryRunIsFifo(max, states, events, n - 1);
      EveryCallIsAnswered(max, states, events, n - 1, t);
      FollowsAnswered(s, e, u, Calls(events[..n - 1], t), t);
      assert events[..n][..n - 1] == events[..n - 1];
    }
  }

  // ---------- in place ----------

  class KMsgq {
    const buffer: array<Msg>
    var readIndex: nat
    var writeIndex: nat
    var usedMsgs: nat
    var waitQ: seq<Waiter>
    ghost var accepted: seq<Msg>
    ghost var gone: seq<Fate>
    ghost var log: seq<Outcome>

    ghost predicate RingOk()
      reads this
    {
      Shape(buffer.Length, readIndex, writeIndex, usedMsgs)
    }

    ghost function State(): Msgq
      reads this, buffer
      requires RingOk()
    {
      Msgq(buffer.Length, View(buffer[..], readIndex, usedMsgs), waitQ, accepted, gone, log)
    }

    ghost predicate Valid()
      reads this, buffer
    {
      RingOk() && Inv(State())
    }

    /** `k_msgq_init`. */
    constructor (buffer: array<Msg>)
      ensures Valid() && State() == Init(buffer.Length) && this.buffer == buffer
    {
      this.buffer := buffer;
      readIndex, writeIndex, usedMsgs, waitQ := 0, 0, 0, [];
      accepted, gone, log := [], [], [];
    }

    /** The copy to `write_ptr`. */
    method Store(m: Msg)
      requires RingOk() && usedMsgs < buffer.Length
      modifies this`writeIndex, this`usedMsgs, buffer
      ensures RingOk() && View(buffer[..], readIndex, usedMsgs) == old(View(buffer[..], readIndex, usedMsgs)) + [m]
    {
      PutRun(buffer[..], readIndex, writeIndex, usedMsgs, [m]);
      buffer[writeIndex] := m;
      ghost var b := buffer[..];
      assert b == old(buffer[..])[..writeIndex] + [m] + old(buffer[..])[writeIndex + 1..];
      writeIndex := writeIndex + 1;
      if writeIndex == buffer.Length {
        writeIndex := 0;
      }
      usedMsgs := usedMsgs + 1;
      assert buffer[..] == b;
    }

    /** The copy from `read_ptr`. */
    method Fetch() returns (m: Msg)
      requires RingOk() && usedMsgs > 0
      modifies this`readIndex, this`usedMsgs
      ensures var v := old(View(buffer[..], readIndex, usedMsgs));
              RingOk() && usedMsgs == old(usedMsgs) - 1 && m == v[0] && View(buffer[..], readIndex, usedMsgs) == v[1..]
    {
      GetRun(buffer[..], readIndex, writeIndex, usedMsgs, 1);
      m := buffer[readIndex];
      assert m == buffer[..][readIndex..readIndex + 1][0];
      readIndex := readIndex + 1;
      if readIndex == buffer.Length {
        readIndex := 0;
      }
      usedMsgs := usedMsgs - 1;
      assert buffer[..] == old(buffer[..]);
    }

    /** `k_msgq_put`. */
    method Put(tid: nat, prio: int, m: Msg, noWait: bool)
      requires Valid()
      modifies this, buffer
      ensures Valid() && State() == PutCall(old(State()), tid, prio, m, noWait)
    {
      PutKeeps(State(), tid, prio, m, noWait);
      if usedMsgs < buffer.Length {
        if |waitQ| > 0 {
          var w := waitQ[0];
          waitQ := waitQ[1..];
          assert w.Reader?;
          accepted, gone := accepted + [m], gone + [Fate(m, true)];
          log := log + [Received(w.tid, Ok, m), Sent(tid, Ok, m)];
        } else {
          Store(m);
          accepted, log := accepted + [m], log + [Sent(tid, Ok, m)];
        }
      } else if noWait {
        log := log + [Sent(tid, NoMsg, m)];
      } else {
        waitQ := PriorityList.Add(waitQ, Writer(tid, prio, m), WaiterPrio);
      }
    }

    /** `k_msgq_get`. */
    method Get(tid: nat, prio: int, noWait: bool)
      requires Valid()
      modifies this, buffer
      ensures Valid() && State() == GetCall(old(State()), tid, prio, noWait)
    {
      GetKeeps(State(), tid, prio, noWait);
      if usedMsgs > 0 {
        TakeFirst(tid, prio, noWait);
      } else if noWait {
        log := log + [Received(tid, NoMsg, [])];
      } else {
        waitQ := PriorityList.Add(waitQ, Reader(tid, prio), WaiterPrio);
      }
    }

    /** The oldest message out, and the first waiting writer's in. */
    method TakeFirst(tid: nat, ghost prio: int, ghost noWait: bool)
      requires RingOk() && Waiting(State()) && usedMsgs > 0
      modifies this, buffer
      ensures RingOk() && State() == GetCall(old(State()), tid, prio, noWait)
    {
      ghost var s := State();
      var m := Fetch();
      gone := gone + [Fate(m, true)];
      assert State() == s.(ring := s.ring[1..], gone := s.gone + [Fate(s.ring[0], true)]);
      if |waitQ| > 0 {
        var w := waitQ[0];
        waitQ := waitQ[1..];
        assert w.Writer?;
        Store(w.msg);
        accepted, log := accepted + [w.msg], log + [Sent(w.tid, Ok, w.msg), Received(tid, Ok, m)];
      } else {
        log := log + [Received(tid, Ok, m)];
      }
    }

    /** A waiter's timeout. */
    method WaiterTimesOut(i: nat)
      requires Valid() && i < |waitQ|
      modifies this
      ensures Valid() && State() == TimeoutCall(old(State()), i)
    {
      StepKeeps(State(), Event.WaiterTimeout(i));
      log := log + [Failure(waitQ[i], Again)];
      waitQ := RemoveAt(waitQ, i);
    }

    /** `k_msgq_purge`. */
    method Purge()
      requires Valid()
      modifies this
      ensures Valid() && State() == PurgeCall(old(State()))
    {
      PurgeKeeps(State());
      gone := gone + Purged(View(buffer[..], readIndex, usedMsgs));
      FailAll();
      usedMsgs := 0;
      readIndex := writeIndex;
      assert State() == PurgeCall(old(State()));
    }

    /** Its loop, which wakes the waiters one by one. */
    method FailAll()
      modifies this`waitQ, this`log
      ensures waitQ == [] && log == old(log) + Failures(old(waitQ))
    {
      while |waitQ| > 0
        invariant log + Failures(waitQ) == old(log) + Failures(old(waitQ))
      {
        assert (log + [Failure(waitQ[0], NoMsg)]) + Failures(waitQ[1..]) == log + Failures(waitQ);
        log := log + [Failure(waitQ[0], NoMsg)];
        waitQ := waitQ[1..];
      }
    }
  }
}
