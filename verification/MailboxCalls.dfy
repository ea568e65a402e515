/** What each mailbox call does, and where every send and every receive of a run ends up. */
module MailboxCalls {
  import opened Basics
  import opened PriorityList
  import opened Counting
  import opened MailboxSpec
  import opened MailboxRuns

  // ---------- single calls ----------

  /** `h` is the match of `t` and `r`, not yet looked at by the receiver. */
  ghost predicate Matched(h: Held, t: Tx, r: Rx) {
    && h.tx == t && h.rx == r && Paired(h) && h.size == Min(t.size, r.size)
    && h.attached == t.block && !h.given && h.syncing && !h.checked && !h.discarded
  }

  /** A send goes to the first waiting receiver that agrees, number `k`.  Without one it fails
      at once or waits, as asked. */
  ghost predicate Sent(s: Mbox, u: Mbox, t: Tx, noWait: bool, k: nat) {
    && k <= |s.rx| && (forall j :: 0 <= j < k ==> !Agree(t, s.rx[j]))
    && (if k < |s.rx| then
          && Agree(t, s.rx[k]) && |u.held| == |s.held| + 1 && Matched(u.held[|s.held|], t, s.rx[k])
          && u == s.(next := s.next + 1, rx := s.rx[..k] + s.rx[k + 1..], held := s.held + [u.held[|s.held|]])
        else if noWait then u == s.(next := s.next + 1, failed := s.failed + [FailedSend(t.mid, NoMsg)])
        else u == s.(next := s.next + 1, tx := u.tx) && Joins(s.tx, u.tx, t, (x: Tx) => x.prio))
  }

  lemma PutOutcome(s: Mbox, t: Tx, noWait: bool) returns (k: nat)
    ensures Sent(s, PutCall(s, t, noWait), t, noWait, k)
  {
    k := FirstRx(s.rx, t, 0);
    InsertJoins(s.tx, t, TxPrio, (x: Tx) => x.prio);
  }

  /** An asynchronous send does that with a descriptor it takes; without one nothing happens. */
  lemma AsyncPutOutcome(s: Mbox, tid: nat, prio: int, target: Option<nat>, size: nat, info: nat, block: bool, sem: bool)
      returns (k: nat)
    ensures var u := AsyncPutCall(s, tid, prio, target, size, info, block, sem);
            if s.asyncFree == [] then u == s
            else
              var n := |s.asyncFree| - 1;
              var t := Tx(s.next, Async(s.asyncFree[n], sem), prio, tid, target, size, info, block);
              Sent(s.(asyncFree := s.asyncFree[..n]), u, t, false, k)
  {
    k := 0;
    if s.asyncFree != [] {
      var n := |s.asyncFree| - 1;
      k := PutOutcome(s.(asyncFree := s.asyncFree[..n]),
                      Tx(s.next, Async(s.asyncFree[n], sem), prio, tid, target, size, info, block), false);
    }
  }

  /** A receive takes the first waiting sender that agrees.  With a buffer, or for an empty
      message, that send is completed at once; else it is kept for later.  Without such a
      sender the receive fails at once or waits, as asked. */
  lemma GetOutcome(s: Mbox, r: Rx, noWait: bool, pool: multiset<nat>) returns (k: nat, h: Held)
    requires Inv(s, pool)
    ensures k <= |s.tx| && forall j :: 0 <= j < k ==> !Agree(s.tx[j], r)
    ensures var u := GetCall(s, r, noWait);
            if k < |s.tx| then
              var v := s.(tx := s.tx[..k] + s.tx[k + 1..], held := s.held + [h]);
              && Agree(s.tx[k], r) && Matched(h, s.tx[k], r)
              && (if r.buffer || h.size == 0 then Completes(v, u, |s.held|, false, false)
                  else u == v.(held := s.held + [h.(checked := true)]))
            else if noWait then u == s.(missed := s.missed + [FailedReceive(r, NoMsg)])
            else u == s.(rx := u.rx) && Joins(s.rx, u.rx, r, (x: Rx) => x.prio)
  {
    k := FirstTx(s.tx, r, 0);
    if k < |s.tx| {
      h := Match(s.tx[k], r);
      CheckOutcome(s, r, k, h, pool);
    } else {
      h := Match(Tx(0, Sync(0), 0, 0, None, 0, 0, false), r);
      InsertJoins(s.rx, r, RxPrio, (x: Rx) => x.prio);
    }
  }

  lemma CheckOutcome(s: Mbox, r: Rx, k: nat, h: Held, pool: multiset<nat>)
    requires Inv(s, pool) && k < |s.tx| && Agree(s.tx[k], r) && h == Match(s.tx[k], r)
    ensures var v := s.(tx := s.tx[..k] + s.tx[k + 1..], held := s.held + [h]);
            var u := DataCheck(v, |s.held|);
            && Matched(h, s.tx[k], r)
            && (if r.buffer || h.size == 0 then Completes(v, u, |s.held|, false, false)
                else u == v.(held := s.held + [h.(checked := true)]))
  {
    var v := s.(tx := RemoveAt(s.tx, k), held := s.held + [h]);
    MatchKeeps(s, r, k, pool);
    DataCheckKeeps(v, |s.held|, pool);
    assert v.held[|s.held| := h.(checked := true)] == s.held + [h.(checked := true)];
  }

  /** A timed-out send or receive leaves its queue and has failed with -EAGAIN. */
  lemma TimeoutOutcome(s: Mbox, i: nat)
    ensures Enabled(s, TxTimeout(i)) ==>
              Step(s, TxTimeout(i)) == s.(tx := s.tx[..i] + s.tx[i + 1..],
                                          failed := s.failed + [FailedSend(s.tx[i].mid, Again)])
    ensures Enabled(s, RxTimeout(i)) ==>
              Step(s, RxTimeout(i)) == s.(rx := s.rx[..i] + s.rx[i + 1..],
                                          missed := s.missed + [FailedReceive(s.rx[i], Again)])
  {
  }

  // ---------- runs ----------

  /** What `e` sends from `s`; the number is the position among all sends. */
  function SendBy(s: Mbox, e: Event): seq<Tx> {
    match e
    case Put(tid, prio, target, size, info, block, _) =>
      [Tx(s.next, Sync(tid), prio, tid, target, size, info, block)]
    case AsyncPut(tid, prio, target, size, info, block, sem) =>
      if s.asyncFree == [] then []
      else [Tx(s.next, Async(s.asyncFree[|s.asyncFree| - 1], sem), prio, tid, target, size, info, block)]
    case _ => []
  }

  function Sends(states: seq<Mbox>, events: seq<Event>, n: nat): seq<Tx>
    requires n <= |events| <= |states|
  {
    if n == 0 then [] else Sends(states, events, n - 1) + SendBy(states[n - 1], events[n - 1])
  }

  function ReceiveBy(e: Event): seq<Rx> { if e.Get? then [e.rx] else [] }

  function Receives(events: seq<Event>): seq<Rx> {
    if events == [] then [] else Receives(events[..|events| - 1]) + ReceiveBy(events[|events| - 1])
  }

  /** `t` is the send its number says. */
  ghost predicate IsSend(t: Tx, sends: seq<Tx>) { t.mid < |sends| && sends[t.mid] == t }

  /** Every message in any stage is one that was sent, as it was sent; completed ones went to
      the receiver they are recorded with. */
  ghost predicate Real(s: Mbox, sends: seq<Tx>) {
    && s.next == |sends|
    && (forall i :: 0 <= i < |s.tx| ==> IsSend(s.tx[i], sends))
    && (forall i :: 0 <= i < |s.held| ==> IsSend(s.held[i].tx, sends))
    && (forall i :: 0 <= i < |s.done| ==> Backed(s.held, s.done[i]))
  }

  ghost predicate Backed(held: seq<Held>, d: Done) {
    exists j :: 0 <= j < |held| && held[j].tx == d.tx && held[j].rx == d.rx && !held[j].syncing
  }

  function RxIs(x: Rx): Rx -> bool { (r: Rx) => r == x }

  function MissedIs(x: Rx): FailedReceive -> bool { (f: FailedReceive) => f.rx == x }

  function HeldFor(x: Rx): Held -> bool { (h: Held) => h.rx == x }

  /** Every receive waits, got one message, or failed. */
  ghost predicate Received(s: Mbox, receives: seq<Rx>, x: Rx) {
    Count(receives, RxIs(x)) == Count(s.rx, RxIs(x)) + Count(s.held, HeldFor(x)) + Count(s.missed, MissedIs(x))
  }

  /** What a retrieval or disposal may change. */
  ghost predicate Rewrites(s: Mbox, t: Mbox) {
    && t.tx == s.tx && t.rx == s.rx && t.next == s.next && t.missed == s.missed && |t.held| == |s.held|
    && (forall i :: 0 <= i < |s.held| ==>
          t.held[i].tx == s.held[i].tx && t.held[i].rx == s.held[i].rx && (t.held[i].syncing ==> s.held[i].syncing))
    && |s.done| <= |t.done| <= |s.done| + 1 && t.done[..|s.done|] == s.done
    && (|t.done| > |s.done| ==> Backed(t.held, t.done[|s.done|]))
  }

  lemma DisposeRewrites(s: Mbox, i: nat, h: Held)
    requires i < |s.held| && h.tx == s.held[i].tx && h.rx == s.held[i].rx && h.syncing == s.held[i].syncing
    ensures Rewrites(s, Dispose(s.(held := s.held[i := h]), i))
  {
    var t := Dispose(s.(held := s.held[i := h]), i);
    if h.syncing {
      assert t.held[i].tx == h.tx && t.held[i].rx == h.rx && !t.held[i].syncing;
      assert Backed(t.held, t.done[|s.done|]);
    }
  }

  lemma StepRewrites(s: Mbox, e: Event)
    requires Enabled(s, e) && (e.ReceiverResumes? || e.Retrieve? || e.RetrieveBlock?)
    ensures Rewrites(s, Step(s, e))
  {
    var i := e.i;
    var h := s.held[i];
    assert s.(held := s.held[i := h]) == s;
    match e
    case ReceiverResumes(_) => DisposeRewrites(s, i, h.(checked := true));
    case Retrieve(_, discard) => DisposeRewrites(s, i, if discard then h.(size := 0, discarded := true) else h);
    case RetrieveBlock(_, discard, gotBlock) =>
      DisposeRewrites(s, i, if discard then h.(size := 0, discarded := true)
                            else if h.attached then h.(attached := false, given := true) else h);
  }

  lemma RewritesReal(s: Mbox, t: Mbox, sends: seq<Tx>)
    requires Rewrites(s, t) && Real(s, sends)
    ensures Real(t, sends)
  {
    forall i | 0 <= i < |t.done| ensures Backed(t.held, t.done[i]) {
      if i < |s.done| {
        assert t.done[i] == s.done[i] && Backed(s.held, s.done[i]);
      }
    }
  }

  lemma {:induction false} CountSame(a: seq<Held>, b: seq<Held>, x: Rx)
    requires |a| == |b| && forall i :: 0 <= i < |a| ==> a[i].rx == b[i].rx
    ensures Count(a, HeldFor(x)) == Count(b, HeldFor(x))
  {
    if a != [] { CountSame(a[1..], b[1..], x); }
  }

  lemma MatchedReal(s: Mbox, h: Held, q: seq<Tx>, p: seq<Rx>, next: nat, sends: seq<Tx>, more: seq<Tx>)
    requires Real(s, sends) && next == |sends + more| && IsSend(h.tx, sends + more)
    requires forall i :: 0 <= i < |q| ==> IsSend(q[i], sends + more)
    ensures Real(s.(tx := q, rx := p, held := s.held + [h], next := next), sends + more)
  {
    forall i | 0 <= i < |s.done| ensures Backed(s.held + [h], s.done[i]) {
      assert Backed(s.held, s.done[i]);
      var j :| 0 <= j < |s.held| && s.held[j].tx == s.done[i].tx && s.held[j].rx == s.done[i].rx && !s.held[j].syncing;
      assert (s.held + [h])[j] == s.held[j];
    }
  }

  lemma PutReal(s: Mbox, t: Tx, noWait: bool, sends: seq<Tx>)
    requires Real(s, sends) && t.mid == s.next
    ensures Real(PutCall(s, t, noWait), sends + [t])
  {
    var k, all := FirstRx(s.rx, t, 0), sends + [t];
    assert forall x :: IsSend(x, sends) ==> IsSend(x, all);
    if k < |s.rx| {
      MatchedReal(s, Match(t, s.rx[k]), s.tx, RemoveAt(s.rx, k), s.next + 1, sends, [t]);
    } else if !noWait {
      var m, q := Place(s.tx, t, TxPrio, 0), Insert(s.tx, t, TxPrio);
      assert forall i :: 0 <= i < |q| ==> q[i] == if i < m then s.tx[i] else if i == m then t else s.tx[i - 1];
    }
  }

  lemma GetReal(s: Mbox, r: Rx, noWait: bool, sends: seq<Tx>)
    requires Real(s, sends)
    ensures Real(GetCall(s, r, noWait), sends)
  {
    var k := FirstTx(s.tx, r, 0);
    if k < |s.tx| {
      var h := Match(s.tx[k], r);
      var v := s.(tx := RemoveAt(s.tx, k), held := s.held + [h]);
      assert sends + [] == sends;
      MatchedReal(s, h, RemoveAt(s.tx, k), s.rx, s.next, sends, []);
      StepRewrites(v, ReceiverResumes(|s.held|));
      RewritesReal(v, DataCheck(v, |s.held|), sends);
    }
  }

  lemma StepReal(s: Mbox, e: Event, sends: seq<Tx>)
    requires Real(s, sends) && Enabled(s, e)
    ensures Real(Step(s, e), sends + SendBy(s, e))
  {
    assert sends + [] == sends;
    match e
    case Put(tid, prio, target, size, info, block, noWait) =>
      PutReal(s, Tx(s.next, Sync(tid), prio, tid, target, size, info, block), noWait, sends);
    case AsyncPut(tid, prio, target, size, info, block, sem) =>
      if s.asyncFree != [] {
        var n := |s.asyncFree| - 1;
        PutReal(s.(asyncFree := s.asyncFree[..n]),
                Tx(s.next, Async(s.asyncFree[n], sem), prio, tid, target, size, info, block), false, sends);
      }
    case Get(r, noWait) => GetReal(s, r, noWait, sends);
    case TxTimeout(i) =>
      var q := RemoveAt(s.tx, i);
      assert forall j :: 0 <= j < |q| ==> q[j] == s.tx[if j < i then j else j + 1];
    case RxTimeout(i) =>
    case _ =>
      StepRewrites(s, e);
      RewritesReal(s, Step(s, e), sends);
  }

  lemma PutReceived(s: Mbox, t: Tx, noWait: bool, receives: seq<Rx>, x: Rx)
    requires Received(s, receives, x)
    ensures Received(PutCall(s, t, noWait), receives, x)
  {
    var k := FirstRx(s.rx, t, 0);
    if k < |s.rx| {
      CountRemove(s.rx, k, RxIs(x));
      CountPush(s.held, Match(t, s.rx[k]), HeldFor(x));
    }
  }

  lemma GetReceived(s: Mbox, r: Rx, noWait: bool, receives: seq<Rx>, x: Rx)
    requires Received(s, receives, x)
    ensures Received(GetCall(s, r, noWait), receives + [r], x)
  {
    CountPush(receives, r, RxIs(x));
    var k := FirstTx(s.tx, r, 0);
    if k < |s.tx| {
      var h := Match(s.tx[k], r);
      var v := s.(tx := RemoveAt(s.tx, k), held := s.held + [h]);
      CountPush(s.held, h, HeldFor(x));
      StepRewrites(v, ReceiverResumes(|s.held|));
      CountSame(v.held, DataCheck(v, |s.held|).held, x);
    } else if noWait {
      CountPush(s.missed, FailedReceive(r, NoMsg), MissedIs(x));
    } else {
      CountInsert(s.rx, r, RxPrio, RxIs(x));
    }
  }

  lemma StepReceived(s: Mbox, e: Event, receives: seq<Rx>, x: Rx)
    requires Received(s, receives, x) && Enabled(s, e)
    ensures Received(Step(s, e), receives + ReceiveBy(e), x)
  {
    assert receives + [] == receives;
    match e
    case Put(tid, prio, target, size, info, block, noWait) =>
      PutReceived(s, Tx(s.next, Sync(tid), prio, tid, target, size, info, block), noWait, receives, x);
    case AsyncPut(tid, prio, target, size, info, block, sem) =>
      if s.asyncFree != [] {
        var n := |s.asyncFree| - 1;
        PutReceived(s.(asyncFree := s.asyncFree[..n]),
                    Tx(s.next, Async(s.asyncFree[n], sem), prio, tid, target, size, info, block), false, receives, x);
      }
    case Get(r, noWait) => GetReceived(s, r, noWait, receives, x);
    case TxTimeout(i) =>
    case RxTimeout(i) =>
      CountRemove(s.rx, i, RxIs(x));
      CountPush(s.missed, FailedReceive(s.rx[i], Again), MissedIs(x));
    case _ =>
      StepRewrites(s, e);
      CountSame(s.held, Step(s, e).held, x);
  }

  /** In every run, every message that waits, was received or is complete is one that was
      sent, as it was sent; and every receive waits, got exactly one message, or failed. */
  lemma {:induction false} EveryMessageIsReal(free: seq<nat>, states: seq<Mbox>, events: seq<Event>, n: nat, x: Rx)
    requires IsRun(states, events) && states[0] == Init(free) && n < |states|
    ensures Real(states[n], Sends(states, events, n)) && Received(states[n], Receives(events[..n]), x)
    decreases n
  {
    if n > 0 {
      var s, e := states[n - 1], events[n - 1];
      assert events[..n][..n - 1] == events[..n - 1];
      EveryMessageIsReal(free, states, events, n - 1, x);
      StepReal(s, e, Sends(states, events, n - 1));
      StepReceived(s, e, Receives(events[..n - 1]), x);
    }
  }
}
