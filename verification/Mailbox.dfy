/** The mailbox calls, in place. */
module Mailbox {
  import opened Basics
  import opened PriorityList
  import opened MailboxSpec
  import opened MailboxRuns

  lemma FoundIff(q: seq<Tx>, r: Rx)
    ensures FirstTx(q, r, 0) < |q| <==> exists t :: t in q && Agree(t, r)
  {
    var k := FirstTx(q, r, 0);
    if k < |q| { assert q[k] in q && Agree(q[k], r); }
  }

  class KMbox {
    var tx: seq<Tx>
    var rx: seq<Rx>
    var held: seq<Held>
    var asyncFree: seq<nat>
    var semsGiven: nat
    var serial: nat  // number of the next send
    ghost var done: seq<Done>
    ghost var failed: seq<FailedSend>
    ghost var missed: seq<FailedReceive>
    ghost const pool: multiset<nat>

    ghost function State(): Mbox
      reads this
    {
      Mbox(tx, rx, held, asyncFree, semsGiven, serial, done, failed, missed)
    }

    ghost predicate Valid()
      reads this
    {
      Inv(State(), pool)
    }

    constructor (free: seq<nat>)
      ensures Valid() && State() == Init(free) && pool == multiset(free)
    {
      tx, rx, held, asyncFree := [], [], [], free;
      semsGiven, serial, done, failed, missed := 0, 0, [], [], [];
      pool := multiset(free);
      new;
      EveryRunIsSafe(free, [Init(free)], [], 0);
    }

    /** `mbox_message_dispose`. */
    method MessageDispose(i: nat)
      requires i < |held|
      modifies this`held, this`asyncFree, this`semsGiven, this`done
      ensures State() == Dispose(old(State()), i)
    {
      var h := held[i];
      if !h.syncing {
        return;
      }
      held := held[i := h.(syncing := false, attached := false)];
      done := done + [Completion(h)];
      if h.tx.sender.Async? {
        asyncFree := asyncFree + [h.tx.sender.desc];
        if h.tx.sender.sem {
          semsGiven := semsGiven + 1;
        }
      }
    }

    /** `mbox_message_put`: walks the receivers in queue order. */
    method MessagePut(t: Tx, noWait: bool) returns (matched: bool)
      modifies this`tx, this`rx, this`held, this`serial, this`failed
      ensures State() == PutCall(old(State()), t, noWait)
      ensures matched <==> exists r :: r in old(rx) && Agree(t, r)
    {
      serial := serial + 1;
      var i := 0;
      while i < |rx|
        invariant 0 <= i <= |rx| && FirstRx(rx, t, 0) == FirstRx(rx, t, i)
      {
        if Compatible(t, rx[i]) {
          assert rx[i] in old(rx) && Agree(t, rx[i]);
          held := held + [Match(t, rx[i])];
          rx := RemoveAt(rx, i);
          return true;
        }
        i := i + 1;
      }
      matched := false;
      if noWait {
        failed := failed + [FailedSend(t.mid, NoMsg)];
      } else {
        tx := PriorityList.Add(tx, t, TxPrio);
      }
    }

    /** `k_mbox_put`. */
    method Put(tid: nat, prio: int, target: Option<nat>, size: nat, info: nat, block: bool, noWait: bool)
      requires Valid()
      modifies this
      ensures Valid() && State() == Step(old(State()), Event.Put(tid, prio, target, size, info, block, noWait))
    {
      StepKeeps(State(), Event.Put(tid, prio, target, size, info, block, noWait), pool);
      var _ := MessagePut(Tx(serial, Sync(tid), prio, tid, target, size, info, block), noWait);
    }

    /** `k_mbox_async_put`; without a free descriptor its caller waits for one. */
    method AsyncPut(tid: nat, prio: int, target: Option<nat>, size: nat, info: nat, block: bool, sem: bool)
        returns (sent: bool)
      requires Valid()
      modifies this
      ensures Valid() && State() == Step(old(State()), Event.AsyncPut(tid, prio, target, size, info, block, sem))
      ensures sent <==> old(asyncFree) != []
      ensures !sent ==> State() == old(State())
    {
      StepKeeps(State(), Event.AsyncPut(tid, prio, target, size, info, block, sem), pool);
      if |asyncFree| == 0 {
        return false;
      }
      sent := true;
      var n := |asyncFree| - 1;
      var desc := asyncFree[n];
      asyncFree := asyncFree[..n];
      var _ := MessagePut(Tx(serial, Async(desc, sem), prio, tid, target, size, info, block), false);
    }

    /** `mbox_message_data_check`. */
    method MessageDataCheck(i: nat)
      requires i < |held|
      modifies this`held, this`asyncFree, this`semsGiven, this`done
      ensures State() == DataCheck(old(State()), i)
    {
      var h := held[i];
      held := held[i := h.(checked := true)];
      if h.rx.buffer {
        MessageDispose(i);
      } else if h.size == 0 {
        MessageDispose(i);
      }
    }

    /** The walk of `k_mbox_get` over the senders, in queue order. */
    method FindSender(r: Rx) returns (k: nat)
      ensures k == FirstTx(tx, r, 0)
    {
      k := 0;
      while k < |tx|
        invariant 0 <= k <= |tx| && FirstTx(tx, r, 0) == FirstTx(tx, r, k)
      {
        if Compatible(tx[k], r) {
          return;
        }
        k := k + 1;
      }
    }

    /** `k_mbox_get` up to its return or pend. */
    method Get(r: Rx, noWait: bool) returns (matched: bool)
      requires Valid()
      modifies this
      ensures Valid() && State() == Step(old(State()), Event.Get(r, noWait))
      ensures matched <==> exists t :: t in old(tx) && Agree(t, r)
    {
      ghost var goal := Step(State(), Event.Get(r, noWait));
      StepKeeps(State(), Event.Get(r, noWait), pool);
      FoundIff(tx, r);
      var k := FindSender(r);
      matched := k < |tx|;
      if matched {
        held := held + [Match(tx[k], r)];
        tx := RemoveAt(tx, k);
        MessageDataCheck(|held| - 1);
      } else if noWait {
        missed := missed + [FailedReceive(r, NoMsg)];
      } else {
        rx := PriorityList.Add(rx, r, RxPrio);
      }
      assert State() == goal;
    }

    /** The rest of `k_mbox_get` once a sender has readied the pended receiver. */
    method ReceiverResumes(i: nat)
      requires Valid() && i < |held| && !held[i].checked
      modifies this
      ensures Valid() && State() == Step(old(State()), Event.ReceiverResumes(i))
    {
      StepKeeps(State(), Event.ReceiverResumes(i), pool);
      MessageDataCheck(i);
    }

    /** A sender's timeout; asynchronous senders have none. */
    method SenderTimesOut(i: nat)
      requires Valid() && i < |tx| && tx[i].sender.Sync?
      modifies this
      ensures Valid() && State() == Step(old(State()), Event.TxTimeout(i))
    {
      StepKeeps(State(), Event.TxTimeout(i), pool);
      failed := failed + [FailedSend(tx[i].mid, Again)];
      tx := RemoveAt(tx, i);
    }

    /** A receiver's timeout. */
    method ReceiverTimesOut(i: nat)
      requires Valid() && i < |rx|
      modifies this
      ensures Valid() && State() == Step(old(State()), Event.RxTimeout(i))
    {
      StepKeeps(State(), Event.RxTimeout(i), pool);
      missed := missed + [FailedReceive(rx[i], Again)];
      rx := RemoveAt(rx, i);
    }

    /** `k_mbox_data_get`. */
    method Retrieve(i: nat, discard: bool)
      requires Valid() && i < |held| && held[i].checked
      modifies this
      ensures Valid() && State() == Step(old(State()), Event.Retrieve(i, discard))
      ensures Completes(old(State()), State(), i, discard, false)
    {
      DataGetKeeps(State(), i, discard, pool);
      if discard {
        held := held[i := held[i].(size := 0, discarded := true)];
      }
      MessageDispose(i);
    }

    /** `k_mbox_data_block_get`; `gotBlock` is the outcome of the pool allocation. */
    method RetrieveBlock(i: nat, discard: bool, gotBlock: bool) returns (ok: bool)
      requires Valid() && i < |held| && held[i].checked
      modifies this
      ensures Valid() && State() == Step(old(State()), Event.RetrieveBlock(i, discard, gotBlock))
      ensures ok <==> discard || old(held[i].attached) || gotBlock
    {
      StepKeeps(State(), Event.RetrieveBlock(i, discard, gotBlock), pool);
      ok := true;
      if discard {
        held := held[i := held[i].(size := 0, discarded := true)];
      } else if held[i].attached {
        held := held[i := held[i].(attached := false, given := true)];
      } else if !gotBlock {
        return false;
      }
      MessageDispose(i);
    }
  }
}
