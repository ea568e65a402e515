/** The pipe as the kernel runs it: a circular buffer updated in place, a working set of
    waiters that the call can complete, direct copies to or from them, one partly served
    waiter left on its queue, and a refill of the buffer from the blocked writers.

    Every call is proved to leave the pipe in the state the byte-at-a-time reference
    reaches. */
module Pipe {
  import opened Basics
  import opened PriorityList
  import opened PipeSpec
  import opened PipeLaws
  import opened PipeRing
  import opened RingView
  import opened PipeRuns

  datatype CallResult = Pended | Returned(code: Code, count: nat)

  function Sum(a: seq<nat>): nat { if a == [] then 0 else Sum(a[..|a| - 1]) + a[|a| - 1] }

  /** `pipe_xfer_prepare`: `todo` holds `bytes_to_xfer` of each waiter in queue order.  The
      first `k` waiters form the working set: together they need no more than the request,
      and the next one does not fit. */
  method Prepare(todo: seq<nat>, space: nat, request: nat, minXfer: nat, noWait: bool) returns (ok: bool, k: nat)
    requires minXfer <= request
    ensures ok <==> !(noWait && Sum(todo) + space < minXfer)
    ensures ok ==> k <= |todo| && Sum(todo[..k]) <= request && (k < |todo| ==> request < Sum(todo[..k]) + todo[k])
  {
    k := 0;
    assert todo[..|todo|] == todo;
    if noWait {
      var bytes, i := 0, 0;
      while i < |todo| && bytes < request
        invariant 0 <= i <= |todo| && bytes == Sum(todo[..i])
      {
        assert todo[..i + 1][..i] == todo[..i];
        bytes := bytes + todo[i];
        i := i + 1;
      }
      SumGrows(todo, i);
      if bytes + space < minXfer {
        return false, 0;
      }
    }
    var bytes := 0;
    while k < |todo| && bytes + todo[k] <= request
      invariant 0 <= k <= |todo| && bytes == Sum(todo[..k]) <= request
    {
      assert todo[..k + 1][..k] == todo[..k];
      bytes := bytes + todo[k];
      k := k + 1;
    }
    ok := true;
  }

  lemma {:induction false} SumGrows(a: seq<nat>, i: nat)
    requires i <= |a|
    ensures Sum(a[..i]) <= Sum(a)
    decreases |a| - i
  {
    if i < |a| {
      assert a[..i + 1][..i] == a[..i];
      SumGrows(a, i + 1);
    } else {
      assert a[..i] == a;
    }
  }

  /** `bytes_to_xfer` of each waiting reader and writer. */
  function Wants(rs: seq<Reader>): (t: seq<nat>)
    ensures |t| == |rs| && forall i :: 0 <= i < |rs| ==> t[i] == rs[i].want
  {
    seq(|rs|, i requires 0 <= i < |rs| => rs[i].want)
  }

  function Offers(ws: seq<Writer>): (t: seq<nat>)
    ensures |t| == |ws| && forall i :: 0 <= i < |ws| ==> t[i] == |ws[i].left|
  {
    seq(|ws|, i requires 0 <= i < |ws| => |ws[i].left|)
  }

  lemma {:induction false} WantsSum(rs: seq<Reader>, k: nat)
    requires k <= |rs|
    ensures Sum(Wants(rs)[..k]) == Demand(rs[..k])
    ensures Demand(rs[..k]) + Demand(rs[k..]) == Demand(rs)
  {
    if k == 0 {
      assert rs[0..] == rs;
    } else {
      WantsSum(rs, k - 1);
      assert Wants(rs)[..k][..k - 1] == Wants(rs)[..k - 1];
      assert rs[..k] == rs[..k - 1] + [rs[k - 1]] && rs[k - 1..][1..] == rs[k..];
      DemandLast(rs[..k - 1], rs[k - 1]);
    }
  }

  lemma {:induction false} DemandLast(rs: seq<Reader>, r: Reader)
    ensures Demand(rs + [r]) == Demand(rs) + r.want
  {
    if rs != [] { DemandLast(rs[1..], r); assert (rs + [r])[1..] == rs[1..] + [r]; }
  }

  lemma {:induction false} OffersSum(ws: seq<Writer>, k: nat)
    requires k <= |ws|
    ensures Sum(Offers(ws)[..k]) == |Stream(ws[..k])|
  {
    if k > 0 {
      OffersSum(ws, k - 1);
      assert Offers(ws)[..k][..k - 1] == Offers(ws)[..k - 1];
      assert ws[..k] == ws[..k - 1] + [ws[k - 1]];
      StreamConcat(ws[..k - 1], [ws[k - 1]]);
    }
  }

  lemma StoreNothing(s: PipeState)
    ensures Store(s, []) == s
  {
    assert s.ring + [] == s.ring && s.accepted + [] == s.accepted;
  }

  /** Taking a working set of readers off the queue. */
  lemma SetApart(s: PipeState, k: nat)
    requires Waiting(s) && k <= |s.readers|
    ensures Ready(s.(readers := s.readers[k..])) && (s.readers != [] ==> s.ring == [])
    ensures forall i :: 0 <= i < k ==> 0 < s.readers[..k][i].want
  {
    forall i | 0 <= i < |s.readers| - k ensures GoodReader(s.readers[k..][i]) { assert GoodReader(s.readers[k + i]); }
    forall i | 0 <= i < k ensures 0 < s.readers[..k][i].want { assert GoodReader(s.readers[i]); }
  }

  lemma StaysReady(s: PipeState, t: PipeState)
    requires Ready(s) && t.readers == s.readers && t.writers == s.writers && t.ring == s.ring && t.size == s.size
    ensures Ready(t)
  {
  }

  class Pipe {
    const buffer: array<byte>
    var bytesUsed: nat
    var readIndex: nat
    var writeIndex: nat
    var readers: seq<Reader>
    var writers: seq<Writer>
    var asyncFree: seq<nat>
    ghost var accepted: seq<byte>
    ghost var delivered: seq<byte>
    ghost var log: seq<Outcome>
    ghost const pool: multiset<nat>

    ghost predicate RingOk()
      reads this
    {
      Shape(buffer.Length, readIndex, writeIndex, bytesUsed)
    }

    ghost function Contents(): seq<byte>
      reads this, buffer
      requires RingOk()
    {
      View(buffer[..], readIndex, bytesUsed)
    }

    ghost function State(): PipeState
      reads this, buffer
      requires RingOk()
    {
      PipeState(buffer.Length, Contents(), readers, writers, asyncFree, accepted, delivered, log)
    }

    ghost predicate Valid()
      reads this, buffer
    {
      RingOk() && Inv(State(), pool)
    }

    /** `k_pipe_init`. */
    constructor (buffer: array<byte>, free: seq<nat>)
      ensures Valid() && State() == Init(buffer.Length, free) && pool == multiset(free) && this.buffer == buffer
    {
      this.buffer := buffer;
      bytesUsed, readIndex, writeIndex := 0, 0, 0;
      readers, writers, asyncFree := [], [], free;
      accepted, delivered, log := [], [], [];
      pool := multiset(free);
    }

    /** One pass of `pipe_buffer_put`, up to the end of the free space or of the buffer. */
    method PutPass(src: seq<byte>) returns (c: nat)
      requires RingOk()
      modifies this`bytesUsed, this`writeIndex, buffer
      ensures RingOk() && c == Min(|src|, Min(buffer.Length - old(bytesUsed), buffer.Length - old(writeIndex)))
      ensures bytesUsed == old(bytesUsed) + c && writeIndex == Wrap(old(writeIndex) + c, buffer.Length)
      ensures Contents() == old(Contents()) + src[..c]
    {
      var run := if bytesUsed < writeIndex then buffer.Length - writeIndex else buffer.Length - bytesUsed;
      c := CopyRun(buffer, readIndex, writeIndex, bytesUsed, run, src);
      ghost var b := buffer[..];
      bytesUsed := bytesUsed + c;
      writeIndex := writeIndex + c;
      if writeIndex == buffer.Length {
        writeIndex := 0;
      }
      assert buffer[..] == b;
    }

    /** `pipe_buffer_put`: two passes always suffice to store all that fits. */
    method BufferPut(src: seq<byte>) returns (n: nat)
      requires RingOk()
      modifies this`bytesUsed, this`writeIndex, buffer
      ensures RingOk() && n == Min(|src|, buffer.Length - old(bytesUsed))
      ensures Contents() == old(Contents()) + src[..n]
    {
      n := 0;
      var i := 0;
      ghost var v := Contents();
      assert v + src[..0] == v;
      while i < 2
        invariant 0 <= i <= 2 && RingOk() && n <= |src| && bytesUsed == old(bytesUsed) + n
        invariant Contents() == v + src[..n]
        invariant n < Min(|src|, buffer.Length - old(bytesUsed)) ==> i == 0 || (i == 1 && writeIndex == 0)
      {
        var c := PutPass(src[n..]);
        Cut(src, n, n + c);
        Assoc(v, src[..n], src[n..][..c]);
        n := n + c;
        i := i + 1;
      }
    }

    /** One pass of `pipe_buffer_get`. */
    method GetPass(room: nat) returns (chunk: seq<byte>)
      requires RingOk()
      modifies this`bytesUsed, this`readIndex
      ensures RingOk() && |chunk| == Min(room, Min(old(bytesUsed), buffer.Length - old(readIndex)))
      ensures bytesUsed == old(bytesUsed) - |chunk| && readIndex == Wrap(old(readIndex) + |chunk|, buffer.Length)
      ensures chunk + Contents() == old(Contents())
    {
      var run := if bytesUsed < buffer.Length - readIndex then bytesUsed else buffer.Length - readIndex;
      chunk := TakeRun(buffer, readIndex, writeIndex, bytesUsed, run, room);
      ghost var b := buffer[..];
      var r := readIndex + |chunk|;
      if r == buffer.Length {
        r := 0;
      }
      bytesUsed, readIndex := bytesUsed - |chunk|, r;
      assert buffer[..] == b;
    }

    /** `pipe_buffer_get`. */
    method BufferGet(room: nat) returns (out: seq<byte>)
      requires RingOk()
      modifies this`bytesUsed, this`readIndex
      ensures RingOk() && |out| == Min(room, old(bytesUsed))
      ensures out == old(Contents())[..|out|] && Contents() == old(Contents())[|out|..]
    {
      out := [];
      ghost var v := Contents();
      assert out + v == v;
      var i := 0;
      while i < 2
        invariant 0 <= i <= 2 && RingOk() && |out| <= room && bytesUsed == old(bytesUsed) - |out|
        invariant out + Contents() == v
        invariant |out| < Min(room, old(bytesUsed)) ==> i == 0 || (i == 1 && readIndex == 0)
      {
        var chunk := GetPass(room - |out|);
        Assoc(out, chunk, Contents());
        out := out + chunk;
        i := i + 1;
      }
    }

    /** Copies to the working set of readers and readies each: their demand is met in full. */
    method ServeReaders(list: seq<Reader>, data: seq<byte>) returns (n: nat)
      requires RingOk() && Demand(list) <= |data| && forall i :: 0 <= i < |list| ==> 0 < list[i].want
      modifies this`accepted, this`delivered, this`log
      ensures n == Demand(list) && RingOk() && Contents() == old(Contents())
      ensures PutAll(old(State()).(readers := list + readers), data) == PutAll(State(), data[n..])
    {
      n := 0;
      var todo := list;
      ghost var goal := PutAll(State().(readers := list + readers), data);
      assert data[0..] == data;
      while |todo| > 0
        invariant RingOk() && n + Demand(todo) == Demand(list) && Contents() == old(Contents())
        invariant forall i :: 0 <= i < |todo| ==> 0 < todo[i].want
        invariant goal == PutAll(State().(readers := todo + readers), data[n..])
      {
        n := ServeFirst(todo, data, n, goal);
        todo := todo[1..];
      }
      assert [] + readers == readers;
    }

    /** One turn of the loop, for the first reader of the working set. */
    method ServeFirst(todo: seq<Reader>, data: seq<byte>, from: nat,
                      ghost goal: (PipeState, seq<byte>)) returns (n: nat)
      requires RingOk() && todo != [] && 0 < todo[0].want && from + todo[0].want <= |data|
      requires goal == PutAll(State().(readers := todo + readers), data[from..])
      modifies this`accepted, this`delivered, this`log
      ensures RingOk() && n == from + todo[0].want && Contents() == old(Contents())
      ensures goal == PutAll(State().(readers := todo[1..] + readers), data[n..])
    {
      var r := todo[0];
      var c := if r.want < |data| - from then r.want else |data| - from;
      ghost var s, tail := State().(readers := todo + readers), todo[1..] + readers;
      assert s.readers == [r] + tail;
      FeedWhole(s, r, tail, data[from..]);
      Cut(data, from, from + c);
      n := ServeReader(r, data, from, c);
      ghost var bs := data[from..][..c];
      assert State().(readers := tail) ==
             s.(readers := tail, accepted := s.accepted + bs, delivered := s.delivered + bs,
                log := s.log + [ReadResult(r.(got := r.got + bs, want := 0))]);
    }

    /** One direct copy; the reader's request is met, so it is readied. */
    method ServeReader(r: Reader, data: seq<byte>, from: nat, c: nat) returns (n: nat)
      requires RingOk() && from + c <= |data| && c == r.want
      modifies this`accepted, this`delivered, this`log
      ensures RingOk() && n == from + c
      ensures var bs := data[from..][..c];
              State() == old(State()).(accepted := old(accepted) + bs, delivered := old(delivered) + bs,
                                       log := old(log) + [ReadResult(r.(got := r.got + bs, want := 0))])
    {
      var chunk := data[from..][..c];
      accepted, delivered := accepted + chunk, delivered + chunk;
      log := log + [ReadResult(r.(got := r.got + chunk, want := r.want - c))];
      n := from + c;
    }

    /** The direct copy to the reader left on the queue, which takes all of it. */
    method PutPartial(data: seq<byte>)
      requires RingOk() && readers != [] && |data| < readers[0].want
      modifies this`accepted, this`delivered, this`readers
      ensures RingOk() && PutAll(old(State()), data) == (State(), []) && readers != [] && bytesUsed == old(bytesUsed)
    {
      FeedPart(State(), data);
      var r := readers[0];
      readers := [r.(got := r.got + data, want := r.want - |data|)] + readers[1..];
      accepted, delivered := accepted + data, delivered + data;
    }

    /** The copy to the buffer. */
    method PutBuffered(data: seq<byte>) returns (n: nat)
      requires RingOk()
      modifies this`accepted, this`bytesUsed, this`writeIndex, buffer
      ensures RingOk() && n == Min(|data|, buffer.Length - old(bytesUsed))
      ensures State() == Store(old(State()), data[..n])
    {
      n := BufferPut(data);
      accepted := accepted + data[..n];
    }

    /** The rest of the data: to the reader left on the queue, then to the buffer. */
    method PutRest(data: seq<byte>) returns (n: nat)
      requires RingOk() && Ready(State()) && (readers != [] ==> |data| < readers[0].want && bytesUsed == 0)
      modifies this`accepted, this`delivered, this`readers, this`bytesUsed, this`writeIndex, buffer
      ensures var r := PutAll(old(State()), data); RingOk() && n <= |data| && r.0 == State() && r.1 == data[n..]
    {
      n := 0;
      if readers != [] {
        PutPartial(data);
        n := |data|;
        StoreNothing(State());
      } else {
        PutAllStores(State(), data);
        assert data[0..] == data;
      }
      var c := PutBuffered(data[n..]);
      n := n + c;
    }

    /** The copying part of a put, once the working set is known to be `readers[..k]`. */
    method PutData(data: seq<byte>, k: nat) returns (n: nat)
      requires RingOk() && Waiting(State()) && k <= |readers| && Demand(readers[..k]) <= |data|
      requires k < |readers| ==> |data| < Demand(readers[..k]) + readers[k].want
      modifies this`accepted, this`delivered, this`log, this`readers, this`bytesUsed, this`writeIndex, buffer
      ensures var r := PutAll(old(State()), data); RingOk() && n <= |data| && r.0 == State() && r.1 == data[n..]
    {
      var list := readers[..k];
      SetApart(State(), k);
      readers := readers[k..];
      assert list + readers == old(readers);
      n := PutSet(list, data);
    }

    /** Serves the working set `list`, already off the queue, then places the rest. */
    method PutSet(list: seq<Reader>, data: seq<byte>) returns (n: nat)
      requires RingOk() && Ready(State()) && Demand(list) <= |data|
      requires forall i :: 0 <= i < |list| ==> 0 < list[i].want
      requires readers != [] ==> |data| < Demand(list) + readers[0].want && bytesUsed == 0
      modifies this`accepted, this`delivered, this`log, this`readers, this`bytesUsed, this`writeIndex, buffer
      ensures var r := PutAll(old(State()).(readers := list + old(readers)), data);
              RingOk() && n <= |data| && r.0 == State() && r.1 == data[n..]
    {
      ghost var s := State();
      ghost var goal := PutAll(s.(readers := list + readers), data);
      n := ServeReaders(list, data);
      StaysReady(s, State());
      n := PutFrom(data, n, goal);
    }

    /** Places what is left of the data from `from` on. */
    method PutFrom(data: seq<byte>, from: nat, ghost goal: (PipeState, seq<byte>)) returns (n: nat)
      requires RingOk() && Ready(State()) && from <= |data| && goal == PutAll(State(), data[from..])
      requires readers != [] ==> |data| - from < readers[0].want && bytesUsed == 0
      modifies this`accepted, this`delivered, this`readers, this`bytesUsed, this`writeIndex, buffer
      ensures RingOk() && n <= |data| && goal.0 == State() && goal.1 == data[n..]
    {
      var m := PutRest(data[from..]);
      Cut(data, from, from + m);
      n := from + m;
    }

    /** The last part of a put: done, out of time, or pend with the rest. */
    method Settle(w: Writer, rest: seq<byte>, noWait: bool) returns (r: CallResult)
      requires RingOk() && |rest| <= w.requested && w.minXfer <= w.requested
      modifies this`log, this`asyncFree, this`writers
      ensures RingOk() && State() == SettlePut(old(State()), w, rest, noWait)
      ensures r.Returned? && w.who.Caller? ==>
                log != [] && log[|log| - 1] == WriteDone(w.who.tid, r.code, r.count)
      ensures r.Pended? <==> !noWait && rest != []
    {
      if |rest| == 0 {
        log, asyncFree := log + [Finished(w)], asyncFree + Freed(w);
        return Returned(Ok, w.requested);
      }
      if noWait {
        log := log + [WriteResult(w.(left := rest))];
        return Returned(ReturnCode(w.minXfer, |rest|, w.requested), w.requested - |rest|);
      }
      writers := PriorityList.Add(writers, w.(left := rest), WriterPrio);
      return Pended;
    }

    /** `_k_pipe_put_internal`. */
    method PutInternal(who: Who, prio: int, data: seq<byte>, minXfer: nat, noWait: bool) returns (r: CallResult)
      requires RingOk() && Waiting(State()) && minXfer <= |data| && (who.Async? ==> !noWait)
      modifies this, buffer
      ensures RingOk() && State() == PutCall(old(State()), who, prio, data, minXfer, noWait)
      ensures r.Returned? && who.Caller? ==>
                log != [] && log[|log| - 1] == WriteDone(who.tid, r.code, r.count)
      ensures r.Pended? <==> !noWait && PutAll(old(State()), data).1 != []
    {
      assert readers[..|readers|] == readers && Wants(readers)[..|readers|] == Wants(readers);
      WantsSum(readers, |readers|);
      var ok, k := Prepare(Wants(readers), buffer.Length - bytesUsed, |data|, minXfer, noWait);
      if !ok {
        log := log + [WriteDone(who.tid, Eio, 0)];
        return Returned(Eio, 0);
      }
      WantsSum(readers, k);
      var n := PutData(data, k);
      r := Settle(Writer(who, prio, |data|, minXfer, data), data[n..], noWait);
    }

    /** `k_pipe_put`: for all data, minimum and waiting mode, the reference's put, and the
        pipe's invariant afterwards. */
    method Put(tid: nat, prio: int, data: seq<byte>, minXfer: nat, noWait: bool) returns (r: CallResult)
      requires Valid() && minXfer <= |data|
      modifies this, buffer
      ensures Valid() && State() == PutCall(old(State()), Caller(tid), prio, data, minXfer, noWait)
      ensures r.Returned? ==> log != [] && log[|log| - 1] == WriteDone(tid, r.code, r.count)
      ensures r.Pended? <==> !noWait && PutAll(old(State()), data).1 != []
    {
      PutKeeps(State(), tid, prio, data, minXfer, noWait, pool);
      r := PutInternal(Caller(tid), prio, data, minXfer, noWait);
    }

    /** `k_pipe_block_put`; without a free descriptor its caller waits for one. */
    method BlockPut(prio: int, data: seq<byte>) returns (taken: bool)
      requires Valid()
      modifies this, buffer
      ensures Valid() && State() == BlockPutCall(old(State()), prio, data)
      ensures taken <==> old(asyncFree) != []
      ensures !taken ==> State() == old(State())
    {
      ghost var s := State();
      assert Inv(BlockPutCall(s, prio, data), pool) by { BlockPutKeeps(s, prio, data, pool); }
      taken := |asyncFree| > 0;
      if taken {
        BlockPutInternal(prio, data);
      }
    }

    method BlockPutInternal(prio: int, data: seq<byte>)
      requires RingOk() && Waiting(State()) && asyncFree != []
      modifies this, buffer
      ensures RingOk() && State() == BlockPutCall(old(State()), prio, data)
    {
      ghost var s := State();
      var k := |asyncFree| - 1;
      var desc := asyncFree[k];
      asyncFree := asyncFree[..k];
      assert State() == s.(asyncFree := s.asyncFree[..k]);
      var r := PutInternal(Async(desc), prio, data, |data|, false);
    }

    method ReaderTimesOut(i: nat)
      requires Valid() && i < |readers|
      modifies this`readers, this`log
      ensures Valid() && State() == ExpireReader(old(State()), i)
    {
      ExpireReaderKeeps(State(), i, pool);
      log := log + [ReadResult(readers[i])];
      readers := RemoveAt(readers, i);
    }

    method WriterTimesOut(i: nat)
      requires Valid() && i < |writers| && writers[i].who.Caller?
      modifies this`writers, this`log
      ensures Valid() && State() == ExpireWriter(old(State()), i)
    {
      ExpireWriterKeeps(State(), i, pool);
      log := log + [WriteResult(writers[i])];
      writers := RemoveAt(writers, i);
    }

    /** Copies from the working set of writers until the request is met.  A writer drained
        while bytes are still wanted is readied; `todo` is what the buffer must take. */
    method ReadWriters(list: seq<Writer>, n: nat, got: seq<byte>) returns (todo: seq<Writer>, out: seq<byte>)
      requires |got| <= n
      modifies this`accepted, this`delivered, this`log, this`asyncFree
      ensures out + Stream(todo) == got + Stream(list) && |out| <= n && (|out| < n ==> todo == [])
      ensures accepted + Stream(todo) == old(accepted) + Stream(list)
      ensures delivered + Stream(todo) == old(delivered) + Stream(list)
      ensures log + FinishLog(todo) == old(log) + FinishLog(list)
      ensures asyncFree + FinishFree(todo) == old(asyncFree) + FinishFree(list)
    {
      todo, out := list, got;
      while |todo| > 0 && |out| < n
        invariant |out| <= n && out + Stream(todo) == got + Stream(list)
        invariant accepted + Stream(todo) == old(accepted) + Stream(list)
        invariant delivered + Stream(todo) == old(delivered) + Stream(list)
        invariant log + FinishLog(todo) == old(log) + FinishLog(list)
        invariant asyncFree + FinishFree(todo) == old(asyncFree) + FinishFree(list)
      {
        var w, tail := todo[0], todo[1..];
        var c := if |w.left| < n - |out| then |w.left| else n - |out|;
        var chunk := w.left[..c];
        todo := [w.(left := w.left[c..])] + tail;
        Advance(w, c, tail);
        Assoc(out, chunk, Stream(todo));
        Assoc(accepted, chunk, Stream(todo));
        Assoc(delivered, chunk, Stream(todo));
        out, accepted, delivered := out + chunk, accepted + chunk, delivered + chunk;
        if |out| == n {
          break;
        }
        Assoc(log, [Finished(w)], FinishLog(tail));
        Assoc(asyncFree, Freed(w), FinishFree(tail));
        log, asyncFree := log + [Finished(w)], asyncFree + Freed(w);
        todo := tail;
      }
    }

    /** Copies what is left of the working set into the buffer; all of it fits, so each
        writer is drained completely before it is readied. */
    method Refill(list: seq<Writer>)
      requires RingOk() && |Stream(list)| <= buffer.Length - bytesUsed
      modifies this`accepted, this`log, this`asyncFree, this`bytesUsed, this`writeIndex, buffer
      ensures RingOk() && Contents() == old(Contents()) + Stream(list)
      ensures accepted == old(accepted) + Stream(list)
      ensures log == old(log) + FinishLog(list) && asyncFree == old(asyncFree) + FinishFree(list)
    {
      var todo := list;
      while |todo| > 0
        invariant RingOk() && Contents() + Stream(todo) == old(Contents()) + Stream(list)
        invariant accepted + Stream(todo) == old(accepted) + Stream(list)
        invariant log + FinishLog(todo) == old(log) + FinishLog(list)
        invariant asyncFree + FinishFree(todo) == old(asyncFree) + FinishFree(list)
      {
        var w, tail := todo[0], todo[1..];
        assert |Contents()| == bytesUsed;
        Assoc(Contents(), w.left, Stream(tail));
        Assoc(accepted, w.left, Stream(tail));
        Assoc(log, [Finished(w)], FinishLog(tail));
        Assoc(asyncFree, Freed(w), FinishFree(tail));
        var c := BufferPut(w.left);
        assert w.left[..c] == w.left;
        accepted := accepted + w.left[..c];
        log, asyncFree := log + [Finished(w)], asyncFree + Freed(w);
        todo := tail;
      }
    }

    /** The direct copy from the writer left on the queue. */
    method ReadPartial(n: nat, got: seq<byte>) returns (out: seq<byte>, ghost c: nat)
      requires writers != [] && |got| <= n
      modifies this`accepted, this`delivered, this`writers
      ensures var w := old(writers[0]);
              && c == Min(n - |got|, |w.left|) && out == got + w.left[..c]
              && accepted == old(accepted) + w.left[..c] && delivered == old(delivered) + w.left[..c]
              && writers == [w.(left := w.left[c..])] + old(writers[1..])
    {
      out, c := got, 0;
      var w := writers[0];
      assert w.left[..0] == [] && w.left[0..] == w.left && writers == [w] + writers[1..];
      if |out| < n {
        var k := if |w.left| < n - |out| then |w.left| else n - |out|;
        c := k;
        writers := [w.(left := w.left[k..])] + writers[1..];
        out := out + w.left[..k];
        accepted, delivered := accepted + w.left[..k], delivered + w.left[..k];
      }
    }

    /** The copy from that writer into the buffer. */
    method RefillPartial() returns (ghost c: nat)
      requires RingOk() && writers != []
      modifies this`accepted, this`writers, this`bytesUsed, this`writeIndex, buffer
      ensures var w := old(writers[0]);
              && RingOk() && c == Min(|w.left|, buffer.Length - old(bytesUsed))
              && Contents() == old(Contents()) + w.left[..c] && accepted == old(accepted) + w.left[..c]
              && writers == [w.(left := w.left[c..])] + old(writers[1..])
    {
      var w := writers[0];
      var k := BufferPut(w.left);
      accepted := accepted + w.left[..k];
      writers := [w.(left := w.left[k..])] + writers[1..];
      c := k;
    }

    method RefillAll(todo: seq<Writer>) returns (ghost d: nat)
      requires RingOk() && writers != [] && |Stream(todo)| <= buffer.Length - bytesUsed
      modifies this`accepted, this`log, this`asyncFree, this`writers, this`bytesUsed, this`writeIndex, buffer
      ensures var w := old(writers[0]);
              && RingOk() && d == Min(|w.left|, buffer.Length - old(bytesUsed) - |Stream(todo)|)
              && Contents() == (old(Contents()) + Stream(todo)) + w.left[..d]
              && accepted == (old(accepted) + Stream(todo)) + w.left[..d]
              && writers == [w.(left := w.left[d..])] + old(writers[1..])
      ensures log == old(log) + FinishLog(todo) && asyncFree == old(asyncFree) + FinishFree(todo)
    {
      Refill(todo);
      assert |Contents()| == bytesUsed && |old(Contents())| == old(bytesUsed);
      d := RefillPartial();
    }

    /** The buffer, then the working set: everything but the refill. */
    method ReadSet(list: seq<Writer>, n: nat) returns (todo: seq<Writer>, out: seq<byte>)
      requires RingOk()
      modifies this`accepted, this`delivered, this`log, this`asyncFree, this`bytesUsed, this`readIndex
      ensures var a := old(Contents()) + Stream(list);
              && RingOk() && |out| == Min(n, |a|) && out == a[..|out|] && Contents() + Stream(todo) == a[|out|..]
              && |Stream(todo)| <= |Stream(list)| && (|out| < n ==> todo == [])
      ensures delivered == old(delivered) + out
      ensures accepted + Stream(todo) == old(accepted) + Stream(list)
      ensures log + FinishLog(todo) == old(log) + FinishLog(list)
      ensures asyncFree + FinishFree(todo) == old(asyncFree) + FinishFree(list)
    {
      ghost var r := Contents();
      var got := BufferGet(n);
      delivered := delivered + got;
      todo, out := ReadWriters(list, n, got);
      ReadPieces(r, Stream(list), got, out, Stream(todo), n, old(delivered), delivered);
    }

    /** The copying part of a get when the request covers all waiting writers. */
    method GetWholeSet(n: nat) returns (out: seq<byte>)
      requires RingOk() && Ready(State()) && |Stream(writers)| <= n
      modifies this`accepted, this`delivered, this`log, this`asyncFree, this`writers,
               this`bytesUsed, this`readIndex, this`writeIndex, buffer
      ensures RingOk() && GetAll(old(State()), n) == (State(), out)
    {
      ghost var s := State();
      var list := writers;
      writers := [];
      var todo;
      todo, out := ReadSet(list, n);
      assert list == [] ==> Stream(todo) == [];
      Refill(todo);
      GetWhole(s, n);
    }

    /** Moves bytes when the first queued writer does not fit in the request: `list` is
        drained, that writer gives up the rest of the request, and the ring ends full. */
    method PartTransfer(list: seq<Writer>, n: nat) returns (out: seq<byte>)
      requires RingOk() && writers != [] && bytesUsed == buffer.Length
      requires |Stream(list)| <= n < |Stream(list)| + |writers[0].left|
      modifies this`accepted, this`delivered, this`log, this`asyncFree, this`writers,
               this`bytesUsed, this`readIndex, this`writeIndex, buffer
      ensures var w, tail := old(writers[0]), old(writers[1..]);
              var a := old(Contents()) + (Stream(list) + (w.left + Stream(tail)));
              var j := n - |Stream(list)|;
              && RingOk() && out == a[..n] && Contents() == a[n..buffer.Length + n]
              && writers == [w.(left := w.left[j..])] + tail
              && accepted == (old(accepted) + Stream(list)) + w.left[..j]
      ensures delivered == old(delivered) + out
      ensures log == old(log) + FinishLog(list) && asyncFree == old(asyncFree) + FinishFree(list)
    {
      ghost var r, w, tail := Contents(), writers[0], writers[1..];
      var todo;
      ghost var c;
      todo, out, c := ReadAll(list, n);
      assert |r| == buffer.Length && bytesUsed + |Stream(todo)| <= buffer.Length;
      PartRefill(todo, r, Stream(list), w.left, Stream(tail), out, old(accepted) + Stream(list), n, c);
    }

    /** The refill after `ReadAll`: with `r` the old ring, `l` the drained set, and the
        queued writer's `p` already cut by `c`, what is where. */
    method PartRefill(todo: seq<Writer>, ghost r: seq<byte>, ghost l: seq<byte>, ghost p: seq<byte>, ghost q: seq<byte>,
                      ghost out: seq<byte>, ghost total: seq<byte>, ghost n: nat, ghost c: nat)
      requires RingOk() && writers != [] && c <= |p| && writers[0].left == p[c..]
      requires |r| == buffer.Length && |l| <= n < |l| + |p| && |Stream(todo)| <= buffer.Length - bytesUsed
      requires var f, t := Min(n, |r + l|), Stream(todo);
               && c == Min(n - f, |p|) && out == (r + l)[..f] + p[..c] && Contents() + t == (r + l)[f..]
               && (f < n ==> t == []) && (c == 0 ==> accepted + t == total) && (c > 0 ==> accepted == total + p[..c])
      modifies this`accepted, this`log, this`asyncFree, this`writers, this`bytesUsed, this`writeIndex, buffer
      ensures var a, j := r + (l + (p + q)), n - |l|;
              && RingOk() && out == a[..n] && Contents() == a[n..buffer.Length + n] && accepted == total + p[..j]
              && writers == [old(writers[0]).(left := p[j..])] + old(writers[1..])
      ensures log == old(log) + FinishLog(todo) && asyncFree == old(asyncFree) + FinishFree(todo)
    {
      ghost var d := Min(|p[c..]|, buffer.Length - bytesUsed - |Stream(todo)|);
      ghost var kept, acc, t := Contents(), accepted, Stream(todo);
      PartSums(r, l, p, q, out, kept, t, acc, total, n, c, d);
      ghost var moved := RefillAll(todo);
      assert moved == d;
      assert Contents() == (kept + t) + p[c..][..d] && accepted == (acc + t) + p[c..][..d];
    }

    /** The buffer, the working set, and the writer behind it. */
    method ReadAll(list: seq<Writer>, n: nat) returns (todo: seq<Writer>, out: seq<byte>, ghost c: nat)
      requires RingOk() && writers != []
      modifies this`accepted, this`delivered, this`log, this`asyncFree, this`writers, this`bytesUsed, this`readIndex
      ensures var w, a := old(writers[0]), old(Contents()) + Stream(list);
              var f := Min(n, |a|);
              && RingOk() && c == Min(n - f, |w.left|) && out == a[..f] + w.left[..c]
              && Contents() + Stream(todo) == a[f..] && |Stream(todo)| <= |Stream(list)| && (f < n ==> todo == [])
              && writers == [w.(left := w.left[c..])] + old(writers[1..])
              && (c == 0 ==> accepted + Stream(todo) == old(accepted) + Stream(list))
              && (c > 0 ==> accepted == (old(accepted) + Stream(list)) + w.left[..c])
      ensures delivered == old(delivered) + out
      ensures log + FinishLog(todo) == old(log) + FinishLog(list)
      ensures asyncFree + FinishFree(todo) == old(asyncFree) + FinishFree(list)
    {
      ghost var w := writers[0];
      todo, out := ReadSet(list, n);
      ghost var acc := accepted;
      Assoc(old(delivered), out, w.left[..Min(n - |out|, |w.left|)]);
      out, c := ReadPartial(n, out);
      if c == 0 {
        assert acc + w.left[..0] == acc;
      } else {
        assert Stream(todo) == [] && acc == old(accepted) + Stream(list);
      }
    }

    /** The copying part of a get when the writer at `k` stays on the queue. */
    method GetPartSet(n: nat, k: nat) returns (out: seq<byte>)
      requires RingOk() && Ready(State()) && k < |writers|
      requires |Stream(writers[..k])| <= n < |Stream(writers[..k])| + |writers[k].left|
      modifies this`accepted, this`delivered, this`log, this`asyncFree, this`writers,
               this`bytesUsed, this`readIndex, this`writeIndex, buffer
      ensures RingOk() && GetAll(old(State()), n) == (State(), out)
    {
      ghost var s := State();
      var list := writers[..k];
      writers := writers[k..];
      ghost var w, tail := writers[0], writers[1..];
      assert s.writers == list + ([w] + tail);
      PartReach(s, list, w, tail);
      assert s.size == |s.ring| by { assert Ready(s); }
      out := PartTransfer(list, n);
      PartIs(s, State(), list, w, tail, n, out);
    }

    /** The copying part of a get, once the working set is known to be `writers[..k]`. */
    method GetData(n: nat, k: nat) returns (out: seq<byte>)
      requires RingOk() && Ready(State()) && k <= |writers| && |Stream(writers[..k])| <= n
      requires k < |writers| ==> n < |Stream(writers[..k])| + |writers[k].left|
      modifies this`accepted, this`delivered, this`log, this`asyncFree, this`writers,
               this`bytesUsed, this`readIndex, this`writeIndex, buffer
      ensures RingOk() && GetAll(old(State()), n) == (State(), out)
    {
      if k == |writers| {
        assert writers[..k] == writers;
        out := GetWholeSet(n);
      } else {
        out := GetPartSet(n, k);
      }
    }

    /** The last part of a get. */
    method SettleRead(tid: nat, prio: int, n: nat, minXfer: nat, bs: seq<byte>, noWait: bool) returns (r: CallResult)
      requires RingOk() && |bs| <= n && minXfer <= n
      modifies this`log, this`readers
      ensures RingOk() && State() == SettleGet(old(State()), tid, prio, n, minXfer, bs, noWait)
      ensures r.Returned? ==> r.count == |bs| && log == old(log) + [ReadDone(tid, r.code, bs)]
      ensures r.Pended? <==> !noWait && |bs| < n
    {
      var reader := Reader(tid, prio, n, minXfer, bs, n - |bs|);
      if |bs| == n {
        log := log + [ReadResult(reader)];
        return Returned(Ok, n);
      }
      if noWait {
        log := log + [ReadResult(reader)];
        return Returned(ReturnCode(minXfer, n - |bs|, n), |bs|);
      }
      readers := PriorityList.Add(readers, reader, ReaderPrio);
      return Pended;
    }

    /** `k_pipe_get`: for all requests, the reference's get, and the pipe's invariant. */
    method Get(tid: nat, prio: int, n: nat, minXfer: nat, noWait: bool) returns (r: CallResult, out: seq<byte>)
      requires Valid() && minXfer <= n
      modifies this, buffer
      ensures Valid() && State() == GetCall(old(State()), tid, prio, n, minXfer, noWait)
      ensures r.Returned? ==> log != [] && log[|log| - 1] == ReadDone(tid, r.code, out) && r.count == |out|
    {
      ghost var s := State();
      assert Inv(GetCall(s, tid, prio, n, minXfer, noWait), pool) by {
        GetCallKeeps(s, tid, prio, n, minXfer, noWait, pool);
      }
      assert Ready(s) by { assert Waiting(s); }
      r, out := GetInternal(tid, prio, n, minXfer, noWait);
    }

    method GetInternal(tid: nat, prio: int, n: nat, minXfer: nat, noWait: bool) returns (r: CallResult, out: seq<byte>)
      requires RingOk() && Ready(State()) && minXfer <= n
      modifies this, buffer
      ensures RingOk() && State() == GetCall(old(State()), tid, prio, n, minXfer, noWait)
      ensures r.Returned? ==> log != [] && log[|log| - 1] == ReadDone(tid, r.code, out) && r.count == |out|
    {
      assert writers[..|writers|] == writers && Offers(writers)[..|writers|] == Offers(writers);
      OffersSum(writers, |writers|);
      var ok, k := Prepare(Offers(writers), bytesUsed, n, minXfer, noWait);
      if !ok {
        log := log + [ReadDone(tid, Eio, [])];
        return Returned(Eio, 0), [];
      }
      OffersSum(writers, k);
      out := GetData(n, k);
      r := SettleRead(tid, prio, n, minXfer, out, noWait);
    }
  }

  lemma Cancel<T>(a: seq<T>, b: seq<T>, t: seq<T>)
    requires a + t == b + t
    ensures a == b
  {
    assert a == (a + t)[..|a|] && b == (b + t)[..|b|];
  }

  /** Where the bytes of the ring `r` and the working set `l` are once `n` bytes have been
      asked for: first in `out`, then in the ring, then still with the writers (`t`). */
  lemma ReadPieces(r: seq<byte>, l: seq<byte>, got: seq<byte>, out: seq<byte>, t: seq<byte>, n: nat,
                   before: seq<byte>, after: seq<byte>)
    requires got == r[..Min(n, |r|)] && out + t == got + l && |out| <= n && (|out| < n ==> t == [])
    requires after + t == (before + got) + l
    ensures var m := Min(n, |r + l|);
            |out| == m && out == (r + l)[..m] && r[|got|..] + t == (r + l)[m..] && |t| <= |l|
    ensures after == before + out
  {
    var x := got + l;
    assert x[..|out|] == out && x[|out|..] == t;
    Assoc(before, got, l);
    Assoc(before, out, t);
    Cancel(after, before + out, t);
  }

  // The same with a writer `p` that stays on the queue because `l` and `p` together
  // exceed the request: it gives `c` bytes to the reader and `d` to the ring.

  lemma PartCounts(r: nat, l: nat, p: nat, out: nat, n: nat, c: nat, d: nat)
    requires l <= n < l + p && out == Min(n, r + l) && c == Min(n - out, p) && d == Min(p - c, r - (r + l - out))
    ensures c == n - out && c + d == n - l && (c > 0 ==> d == r && out == r + l)
  {
  }

  lemma PartBytes(x: seq<byte>, p: seq<byte>, q: seq<byte>, out: seq<byte>, ring: seq<byte>,
                  r: nat, n: nat, c: nat, d: nat)
    requires |out| == Min(n, |x|) && out == x[..|out|] && ring == x[|out|..] && r <= |x|
    requires c == n - |out| && c + d == n - (|x| - r) && c + d <= |p| && (c > 0 ==> |out| == |x|)
    ensures out + p[..c] == (x + (p + q))[..n]
    ensures ring + p[c..][..d] == (x + (p + q))[n..r + n]
    ensures p[c..][d..] == p[c + d..]
  {
    if c == 0 {
      assert p[0..] == p;
    } else {
      assert ring == [];
    }
  }

  lemma PartAccepted(acc: seq<byte>, total: seq<byte>, t: seq<byte>, p: seq<byte>, c: nat, d: nat)
    requires c + d <= |p| && (c == 0 ==> acc + t == total) && (c > 0 ==> t == [] && acc == total + p[..c])
    ensures (acc + t) + p[c..][..d] == total + p[..c + d]
  {
    Cut(p, c, c + d);
    if c == 0 {
      assert p[0..] == p;
    } else {
      Assoc(total, p[..c], p[c..][..d]);
      assert acc + t == acc;
    }
  }

  lemma PartSums(r: seq<byte>, l: seq<byte>, p: seq<byte>, q: seq<byte>, out: seq<byte>, kept: seq<byte>, t: seq<byte>,
                 acc: seq<byte>, total: seq<byte>, n: nat, c: nat, d: nat)
    requires |l| <= n < |l| + |p|
    requires var f := Min(n, |r + l|);
             && c == Min(n - f, |p|) && out == (r + l)[..f] + p[..c] && kept + t == (r + l)[f..]
             && (f < n ==> t == []) && d == Min(|p[c..]|, |r| - |kept| - |t|)
    requires (c == 0 ==> acc + t == total) && (c > 0 ==> acc == total + p[..c])
    ensures var a, j := r + (l + (p + q)), n - |l|;
            && out == a[..n] && (kept + t) + p[c..][..d] == a[n..|r| + n]
            && (acc + t) + p[c..][..d] == total + p[..j] && p[c..][d..] == p[j..]
  {
    var x, f := r + l, Min(n, |r + l|);
    PartCounts(|r|, |l|, |p|, f, n, c, d);
    PartBytes(x, p, q, x[..f], kept + t, |r|, n, c, d);
    PartAccepted(acc, total, t, p, c, d);
    Assoc(r, l, p + q);
  }

  lemma PartIs(s: PipeState, t: PipeState, ws: seq<Writer>, w: Writer, tail: seq<Writer>, n: nat, out: seq<byte>)
    requires Ready(s) && s.writers == ws + ([w] + tail) && |Stream(ws)| <= n < |Stream(ws)| + |w.left|
    requires |s.ring| + n <= |Reach(s)| && out == Reach(s)[..n] && t.ring == Reach(s)[n..|s.ring| + n]
    requires t.writers == [w.(left := w.left[n - |Stream(ws)|..])] + tail
    requires t.accepted == (s.accepted + Stream(ws)) + w.left[..n - |Stream(ws)|] && t.delivered == s.delivered + out
    requires t.log == s.log + FinishLog(ws) && t.asyncFree == s.asyncFree + FinishFree(ws)
    requires t.size == s.size && t.readers == s.readers
    ensures GetAll(s, n) == (t, out)
  {
    GetPart(s, ws, w, tail, n);
  }

  lemma PartReach(s: PipeState, list: seq<Writer>, w: Writer, tail: seq<Writer>)
    requires s.writers == list + ([w] + tail)
    ensures Reach(s) == s.ring + (Stream(list) + (w.left + Stream(tail)))
  {
    StreamConcat(list, [w] + tail);
    assert ([w] + tail)[1..] == tail;
  }

  lemma Advance(w: Writer, c: nat, tail: seq<Writer>)
    requires c <= |w.left|
    ensures var cut := [w.(left := w.left[c..])] + tail;
            && Stream([w] + tail) == w.left[..c] + Stream(cut)
            && FinishLog([w] + tail) == FinishLog(cut) == [Finished(w)] + FinishLog(tail)
            && FinishFree([w] + tail) == FinishFree(cut) == Freed(w) + FinishFree(tail)
            && (c == |w.left| ==> Stream(cut) == Stream(tail))
  {
    var cut := [w.(left := w.left[c..])] + tail;
    assert cut[1..] == tail && ([w] + tail)[1..] == tail;
    assert w.left == w.left[..c] + w.left[c..];
    Assoc(w.left[..c], w.left[c..], Stream(tail));
  }
}
