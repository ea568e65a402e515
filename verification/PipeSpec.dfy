/** What a pipe does, one byte at a time.

    A pipe is a bounded ring plus two priority-ordered wait queues.  This module is the
    reference meaning of `k_pipe_put`, `k_pipe_get` and `k_pipe_block_put`: a byte put goes
    to the first waiting reader, else into the ring; a byte got comes from the ring (which
    the first waiting writer then tops up), else from the first waiting writer.  There is
    no working set and no block copy here; `Pipe.dfy` has those and is proved to
    compute the same thing. */
module PipeSpec {
  import opened Basics
  import opened PriorityList

  newtype byte = x: int | 0 <= x < 256

  /** Who is behind a write: a thread in `k_pipe_put`, or the dummy thread of a
      descriptor taken by `k_pipe_block_put`. */
  datatype Who = Caller(tid: nat) | Async(desc: nat)

  /** A pended reader: what it has received, and `bytes_to_xfer` as `want`. */
  datatype Reader = Reader(tid: nat, prio: int, requested: nat, minXfer: nat, got: seq<byte>, want: nat)

  /** A pended writer; `left` is what `buffer` and `bytes_to_xfer` still cover. */
  datatype Writer = Writer(who: Who, prio: int, requested: nat, minXfer: nat, left: seq<byte>)

  datatype Code = Ok | Eio | Eagain

  /** What a call reported when it came back, or the end of an asynchronous write
      (block freed, semaphore given, descriptor returned). */
  datatype Outcome =
    | ReadDone(tid: nat, code: Code, bytes: seq<byte>)
    | WriteDone(tid: nat, code: Code, count: int)
    | AsyncDone(desc: nat, count: int)

  /** `accepted` and `delivered` are the whole history of bytes taken from writers and
      handed to readers; `log` is the history of outcomes. */
  datatype PipeState = PipeState(
    size: nat,
    ring: seq<byte>,
    readers: seq<Reader>,
    writers: seq<Writer>,
    asyncFree: seq<nat>,
    accepted: seq<byte>,
    delivered: seq<byte>,
    log: seq<Outcome>)

  function ReaderPrio(r: Reader): int { r.prio }

  function WriterPrio(w: Writer): int { w.prio }

  /** `pipe_return_code`. */
  function ReturnCode(minXfer: nat, remaining: int, requested: int): Code {
    if requested - remaining >= minXfer then Ok else Eagain
  }

  function ReadResult(r: Reader): Outcome {
    ReadDone(r.tid, ReturnCode(r.minXfer, r.want, r.requested), r.got)
  }

  function WriteResult(w: Writer): Outcome {
    match w.who
    case Caller(tid) => WriteDone(tid, ReturnCode(w.minXfer, |w.left|, w.requested), w.requested - |w.left|)
    case Async(desc) => AsyncDone(desc, w.requested - |w.left|)
  }

  /** Bytes the waiting readers still ask for. */
  function Demand(rs: seq<Reader>): nat {
    if rs == [] then 0 else rs[0].want + Demand(rs[1..])
  }

  /** Bytes the waiting writers still offer, in queue order. */
  function Stream(ws: seq<Writer>): seq<byte> {
    if ws == [] then [] else ws[0].left + Stream(ws[1..])
  }

  /** Outcomes and returned descriptors when all of `ws` finish, in order. */
  function FinishLog(ws: seq<Writer>): seq<Outcome> {
    if ws == [] then [] else [Finished(ws[0])] + FinishLog(ws[1..])
  }

  function FinishFree(ws: seq<Writer>): seq<nat> {
    if ws == [] then [] else Freed(ws[0]) + FinishFree(ws[1..])
  }

  /** The descriptor an asynchronous writer gives back. */
  function Freed(w: Writer): seq<nat> {
    if w.who.Async? then [w.who.desc] else []
  }

  /** The outcome of a writer all of whose bytes have been taken. */
  function Finished(w: Writer): Outcome { WriteResult(w.(left := [])) }

  // ---------- putting ----------

  function Capacity(s: PipeState): int { Demand(s.readers) + s.size - |s.ring| }

  /** A reader waits for data, or no reader waits and the ring has room. */
  predicate CanPut(s: PipeState) {
    if s.readers != [] then 0 < s.readers[0].want else |s.ring| < s.size
  }

  /** The first reader receives `bs`; when that is all it wanted, its call completes. */
  function Feed(s: PipeState, bs: seq<byte>): PipeState
    requires s.readers != [] && |bs| <= s.readers[0].want
  {
    var r := s.readers[0];
    var r' := r.(got := r.got + bs, want := r.want - |bs|);
    var t := s.(accepted := s.accepted + bs, delivered := s.delivered + bs);
    if r'.want == 0 then t.(readers := s.readers[1..], log := s.log + [ReadResult(r')])
    else t.(readers := [r'] + s.readers[1..])
  }

  function Store(s: PipeState, bs: seq<byte>): PipeState {
    s.(ring := s.ring + bs, accepted := s.accepted + bs)
  }

  function PutByte(s: PipeState, b: byte): PipeState
    requires CanPut(s)
  {
    if s.readers != [] then Feed(s, [b]) else Store(s, [b])
  }

  /** Puts bytes while there is room; the second part is what was left over. */
  function PutAll(s: PipeState, data: seq<byte>): (PipeState, seq<byte>)
    decreases |data|
  {
    if data == [] || !CanPut(s) then (s, data) else PutAll(PutByte(s, data[0]), data[1..])
  }

  // ---------- getting ----------

  predicate HasOffer(s: PipeState) { s.writers != [] && s.writers[0].left != [] }

  predicate CanGet(s: PipeState) { s.ring != [] || HasOffer(s) }

  /** The first writer gives up its first `k` bytes; when those are its last, it is done. */
  function Take(s: PipeState, k: nat): PipeState
    requires s.writers != [] && k <= |s.writers[0].left|
  {
    var w := s.writers[0];
    var w' := w.(left := w.left[k..]);
    var t := s.(accepted := s.accepted + w.left[..k]);
    if w'.left == [] then
      t.(writers := s.writers[1..], log := s.log + [Finished(w)], asyncFree := s.asyncFree + Freed(w))
    else t.(writers := [w'] + s.writers[1..])
  }

  function GetByte(s: PipeState): (PipeState, byte)
    requires CanGet(s)
  {
    if s.ring != [] then
      var t := s.(ring := s.ring[1..], delivered := s.delivered + [s.ring[0]]);
      if HasOffer(s) then (Take(t, 1).(ring := t.ring + [s.writers[0].left[0]]), s.ring[0])
      else (t, s.ring[0])
    else
      var b := s.writers[0].left[0];
      (Take(s, 1).(delivered := s.delivered + [b]), b)
  }

  /** Gets up to `n` bytes; the second part is what was read. */
  function GetAll(s: PipeState, n: nat): (r: (PipeState, seq<byte>))
    ensures |r.1| <= n
    decreases n
  {
    if n == 0 || !CanGet(s) then (s, [])
    else
      var (t, b) := GetByte(s);
      var (u, bs) := GetAll(t, n - 1);
      (u, [b] + bs)
  }

  // ---------- whole calls ----------

  /** The end of a put: `rest` of the data could not be moved.  An asynchronous write
      always waits. */
  function SettlePut(t: PipeState, w: Writer, rest: seq<byte>, noWait: bool): PipeState {
    if rest == [] then t.(log := t.log + [Finished(w)], asyncFree := t.asyncFree + Freed(w))
    else if noWait then t.(log := t.log + [WriteResult(w.(left := rest))])
    else t.(writers := Insert(t.writers, w.(left := rest), WriterPrio))
  }

  /** The end of a get that obtained `bs`. */
  function SettleGet(t: PipeState, tid: nat, prio: int, n: nat, minXfer: nat, bs: seq<byte>, noWait: bool): PipeState
    requires |bs| <= n
  {
    var r := Reader(tid, prio, n, minXfer, bs, n - |bs|);
    if |bs| == n || noWait then t.(log := t.log + [ReadResult(r)])
    else t.(readers := Insert(t.readers, r, ReaderPrio))
  }

  /** `_k_pipe_put_internal`, from entry to return or pend. */
  function PutCall(s: PipeState, who: Who, prio: int, data: seq<byte>, minXfer: nat, noWait: bool): PipeState
    requires who.Async? ==> !noWait
  {
    if noWait && Capacity(s) < minXfer then s.(log := s.log + [WriteDone(who.tid, Eio, 0)])
    else
      var (t, rest) := PutAll(s, data);
      SettlePut(t, Writer(who, prio, |data|, minXfer, data), rest, noWait)
  }

  /** `_impl_k_pipe_get`, from entry to return or pend. */
  function GetCall(s: PipeState, tid: nat, prio: int, n: nat, minXfer: nat, noWait: bool): PipeState
  {
    if noWait && |s.ring| + |Stream(s.writers)| < minXfer then s.(log := s.log + [ReadDone(tid, Eio, [])])
    else
      var (t, bs) := GetAll(s, n);
      SettleGet(t, tid, prio, n, minXfer, bs, noWait)
  }
}
