/** Mailboxes: matching of senders and receivers, and completion of messages. */
module MailboxSpec {
  import opened Basics
  import opened PriorityList

  /** A thread inside `k_mbox_put`, or an asynchronous descriptor with its dummy thread. */
  datatype Sender = Sync(tid: nat) | Async(desc: nat, sem: bool)

  /** A transmit descriptor.  `target` is `None` for K_ANY; `block` says that the data is in
      a memory pool block.  `mid` numbers the sends. */
  datatype Tx = Tx(mid: nat, sender: Sender, prio: int, source: nat, target: Option<nat>, size: nat, info: nat,
                   block: bool)

  /** A receive descriptor; `source` is `None` for K_ANY, `buffer` says that the receiver
      gave a buffer to `k_mbox_get`. */
  datatype Rx = Rx(tid: nat, prio: int, source: Option<nat>, size: nat, info: nat, buffer: bool)

  /** The two descriptors after a match.  `tx` and `rx` are as they were before it.  The
      receiver sees `from`, `size` and `info`, the sender sees `to` and `back`.  `syncing` is
      `_syncing_thread != NULL`; `attached` is `tx_block.data != NULL`; `checked` says that
      the receiver has run `mbox_message_data_check`, `discarded` that it asked for the data
      to be thrown away. */
  datatype Held = Held(tx: Tx, rx: Rx, from: nat, to: nat, size: nat, info: nat, back: nat, attached: bool,
                       given: bool, checked: bool, syncing: bool, discarded: bool)

  /** A completed send: the receiver, size and info its sender sees, and its block's fate. */
  datatype Done = Done(tx: Tx, rx: Rx, to: nat, size: nat, info: nat, freed: bool, given: bool, discarded: bool)

  /** Why a call failed: nobody to match and no waiting, or a timeout. */
  datatype Code = NoMsg | Again

  datatype FailedSend = FailedSend(mid: nat, code: Code)

  datatype FailedReceive = FailedReceive(rx: Rx, code: Code)

  /** `done`, `failed` and `missed` are history: completed sends, failed sends and failed
      receives. */
  datatype Mbox = Mbox(
    tx: seq<Tx>,
    rx: seq<Rx>,
    held: seq<Held>,
    asyncFree: seq<nat>,
    semsGiven: nat,
    next: nat,
    done: seq<Done>,
    failed: seq<FailedSend>,
    missed: seq<FailedReceive>)

  function TxPrio(t: Tx): int { t.prio }

  function RxPrio(r: Rx): int { r.prio }

  /** The test of `mbox_message_match`. */
  predicate Compatible(t: Tx, r: Rx) {
    (t.target == None || t.target == Some(r.tid)) && (r.source == None || r.source == Some(t.source))
  }

  /** The receive descriptor as `mbox_message_match` leaves it. */
  function Match(t: Tx, r: Rx): Held {
    Held(t, r, t.source, r.tid, if r.size > t.size then t.size else r.size, t.info, r.info, t.block, false, false, true,
         false)
  }

  /** The first entry of each queue that fits, or its length. */
  function FirstRx(q: seq<Rx>, t: Tx, i: nat): (k: nat)
    requires i <= |q|
    ensures i <= k <= |q| && (k < |q| ==> Compatible(t, q[k])) && forall j :: i <= j < k ==> !Compatible(t, q[j])
    decreases |q| - i
  {
    if i == |q| || Compatible(t, q[i]) then i else FirstRx(q, t, i + 1)
  }

  function FirstTx(q: seq<Tx>, r: Rx, i: nat): (k: nat)
    requires i <= |q|
    ensures i <= k <= |q| && (k < |q| ==> Compatible(q[k], r)) && forall j :: i <= j < k ==> !Compatible(q[j], r)
    decreases |q| - i
  {
    if i == |q| || Compatible(q[i], r) then i else FirstTx(q, r, i + 1)
  }

  /** What the sender of a message learns when it is disposed of. */
  function Completion(h: Held): Done {
    Done(h.tx, h.rx, h.to, h.size, h.back, h.attached, h.given, h.discarded)
  }

  /** `mbox_message_dispose` on receive descriptor `i`. */
  function Dispose(s: Mbox, i: nat): Mbox
    requires i < |s.held|
  {
    var h := s.held[i];
    if !h.syncing then s
    else
      s.(held := s.held[i := h.(syncing := false, attached := false)],
         done := s.done + [Completion(h)],
         asyncFree := if h.tx.sender.Async? then s.asyncFree + [h.tx.sender.desc] else s.asyncFree,
         semsGiven := if h.tx.sender.Async? && h.tx.sender.sem then s.semsGiven + 1 else s.semsGiven)
  }

  /** `k_mbox_data_get`; `discard` is a null buffer. */
  function DataGet(s: Mbox, i: nat, discard: bool): Mbox
    requires i < |s.held|
  {
    Dispose(if discard then s.(held := s.held[i := s.held[i].(size := 0, discarded := true)]) else s, i)
  }

  /** `k_mbox_data_block_get`; `discard` is a null pool. */
  function DataBlockGet(s: Mbox, i: nat, discard: bool, gotBlock: bool): Mbox
    requires i < |s.held|
  {
    if discard then DataGet(s, i, true)
    else if s.held[i].attached then Dispose(s.(held := s.held[i := s.held[i].(attached := false, given := true)]), i)
    else if !gotBlock then s
    else DataGet(s, i, false)
  }

  /** `mbox_message_data_check`. */
  function DataCheck(s: Mbox, i: nat): Mbox
    requires i < |s.held|
  {
    var t := s.(held := s.held[i := s.held[i].(checked := true)]);
    if s.held[i].rx.buffer then DataGet(t, i, false)
    else if s.held[i].size == 0 then Dispose(t, i)
    else t
  }

  /** `mbox_message_put`. */
  function PutCall(s: Mbox, t: Tx, noWait: bool): Mbox {
    var k := FirstRx(s.rx, t, 0);
    var u := s.(next := s.next + 1);
    if k < |s.rx| then u.(rx := RemoveAt(s.rx, k), held := s.held + [Match(t, s.rx[k])])
    else if noWait then u.(failed := s.failed + [FailedSend(t.mid, NoMsg)])
    else u.(tx := Insert(s.tx, t, TxPrio))
  }

  /** `k_mbox_get`. */
  function GetCall(s: Mbox, r: Rx, noWait: bool): Mbox {
    var k := FirstTx(s.tx, r, 0);
    if k < |s.tx| then
      DataCheck(s.(tx := RemoveAt(s.tx, k), held := s.held + [Match(s.tx[k], r)]), |s.held|)
    else if noWait then s.(missed := s.missed + [FailedReceive(r, NoMsg)])
    else s.(rx := Insert(s.rx, r, RxPrio))
  }

  datatype Event =
    | Put(tid: nat, prio: int, target: Option<nat>, size: nat, info: nat, block: bool, noWait: bool)
    | AsyncPut(tid: nat, prio: int, target: Option<nat>, size: nat, info: nat, block: bool, sem: bool)
    | Get(rx: Rx, noWait: bool)
    | ReceiverResumes(i: nat)
    | Retrieve(i: nat, discard: bool)
    | RetrieveBlock(i: nat, discard: bool, gotBlock: bool)
    | TxTimeout(i: nat)
    | RxTimeout(i: nat)

  /** A receiver handed a message while pended runs its data check before any retrieval;
      dummy senders wait forever. */
  predicate Enabled(s: Mbox, e: Event) {
    match e
    case Put(_, _, _, _, _, _, _) => true
    case AsyncPut(_, _, _, _, _, _, _) => true
    case Get(_, _) => true
    case ReceiverResumes(i) => i < |s.held| && !s.held[i].checked
    case Retrieve(i, _) => i < |s.held| && s.held[i].checked
    case RetrieveBlock(i, _, _) => i < |s.held| && s.held[i].checked
    case TxTimeout(i) => i < |s.tx| && s.tx[i].sender.Sync?
    case RxTimeout(i) => i < |s.rx|
  }

  /** `k_mbox_async_put`; without a free descriptor its caller waits and nothing happens. */
  function AsyncPutCall(s: Mbox, tid: nat, prio: int, target: Option<nat>, size: nat, info: nat, block: bool,
                        sem: bool): Mbox
  {
    var n := |s.asyncFree| - 1;
    if n < 0 then s
    else PutCall(s.(asyncFree := s.asyncFree[..n]),
            Tx(s.next, Async(s.asyncFree[n], sem), prio, tid, target, size, info, block), false)
  }

  function Step(s: Mbox, e: Event): Mbox
    requires Enabled(s, e)
  {
    match e
    case Put(tid, prio, target, size, info, block, noWait) =>
      PutCall(s, Tx(s.next, Sync(tid), prio, tid, target, size, info, block), noWait)
    case AsyncPut(tid, prio, target, size, info, block, sem) =>
      AsyncPutCall(s, tid, prio, target, size, info, block, sem)
    case Get(r, noWait) => GetCall(s, r, noWait)
    case ReceiverResumes(i) => DataCheck(s, i)
    case Retrieve(i, discard) => DataGet(s, i, discard)
    case RetrieveBlock(i, discard, gotBlock) => DataBlockGet(s, i, discard, gotBlock)
    case TxTimeout(i) => s.(tx := RemoveAt(s.tx, i), failed := s.failed + [FailedSend(s.tx[i].mid, Again)])
    case RxTimeout(i) => s.(rx := RemoveAt(s.rx, i), missed := s.missed + [FailedReceive(s.rx[i], Again)])
  }
}
