/** Timeouts inside a transfer.  A put or get unlocks interrupts between taking its working
    set off the wait queue and the copies, so a waiter still on the queue can time out
    there, also the one the call copies to or from through a pointer. */
module PipeWindow {
  import opened Basics
  import opened PriorityList
  import opened PipeSpec
  import opened PipeLaws
  import opened PipeRuns

  /** The queue left of `q` when its first `k` were taken off, entry `j` timed out, and the
      first of the others, unless it is the one that timed out, has become `x`. */
  function Remaining<T>(q: seq<T>, x: T, k: nat, j: nat): seq<T>
    requires k <= j < |q|
  {
    if j == k then q[k + 1..] else [x] + RemoveAt(q[k + 1..], j - k - 1)
  }

  lemma ConsRemove<T>(x: T, q: seq<T>, i: nat)
    requires i <= |q|
    ensures RemoveAt([x] + q, i) == if i == 0 then q else [x] + RemoveAt(q, i - 1)
  {
    assert ([x] + q)[i + 1..] == q[i..];
    if i > 0 {
      assert ([x] + q)[..i] == [x] + q[..i - 1];
      Assoc([x], q[..i - 1], q[i..]);
    }
  }

  lemma RemainingIs<T>(q: seq<T>, x: T, k: nat, j: nat)
    requires k <= j < |q|
    ensures var a := [x] + q[k + 1..];
            a[j - k] == (if j == k then x else q[j]) && RemoveAt(a, j - k) == Remaining(q, x, k, j)
  {
    ConsRemove(x, q[k + 1..], j - k);
  }

  // ---------- during a put ----------

  /** `r` after `bs` were copied into its buffer. */
  function Fed(r: Reader, bs: seq<byte>): Reader
    requires |bs| <= r.want
  {
    r.(got := r.got + bs, want := r.want - |bs|)
  }

  /** The results of the readers of `list`, each given all it wants from the front of `data`. */
  function Served(list: seq<Reader>, data: seq<byte>): seq<Outcome>
    requires Demand(list) <= |data|
  {
    if list == [] then []
    else [ReadResult(Fed(list[0], data[..list[0].want]))] + Served(list[1..], data[list[0].want..])
  }

  /** The working set of a put of `m` bytes is the first `k` readers, and a reader is left
      that can get some of them. */
  predicate PutSet(s: PipeState, m: nat, k: nat) {
    k < |s.readers| && Demand(s.readers[..k]) <= m < Demand(s.readers[..k]) + s.readers[k].want
  }

  /** All of `data` copied, and `list` served, with `queue` left waiting. */
  function Copied(s: PipeState, list: seq<Reader>, queue: seq<Reader>, data: seq<byte>): PipeState
    requires Demand(list) <= |data|
  {
    s.(readers := queue, accepted := s.accepted + data, delivered := s.delivered + data,
       log := s.log + Served(list, data))
  }

  /** A put during which reader `j` times out: it leaves the queue before the copies, which
      go to the working set and through the pointer to reader `k`; it runs, and reports,
      once the put is over. */
  function PutWithTimeout(s: PipeState, w: Writer, noWait: bool, k: nat, j: nat): PipeState
    requires PutSet(s, |w.left|, k) && k <= j < |s.readers|
  {
    var list := s.readers[..k];
    var first := Fed(s.readers[k], w.left[Demand(list)..]);
    var t := Copied(s, list, Remaining(s.readers, first, k, j), w.left);
    var u := SettlePut(t, w, [], noWait);
    u.(log := u.log + [ReadResult(if j == k then first else s.readers[j])])
  }

  /** What a put hands over when `list` is served in full and `r` in part. */
  lemma {:induction false} ServeAll(s: PipeState, list: seq<Reader>, r: Reader, tail: seq<Reader>, data: seq<byte>)
    requires s.readers == list + ([r] + tail) && Demand(list) <= |data| < Demand(list) + r.want
    requires forall i :: 0 <= i < |list| ==> 0 < list[i].want
    ensures PutAll(s, data) == (Copied(s, list, [Fed(r, data[Demand(list)..])] + tail, data), [])
    decreases |list|
  {
    if list == [] {
      FeedPart(s, data);
      assert s.readers[1..] == tail && data[0..] == data && s.log + [] == s.log;
    } else {
      ServeFirst(s, list, r, tail, data);
    }
  }

  lemma {:induction false} ServeFirst(s: PipeState, list: seq<Reader>, r: Reader, tail: seq<Reader>, data: seq<byte>)
    requires list != [] && s.readers == list + ([r] + tail) && Demand(list) <= |data| < Demand(list) + r.want
    requires forall i :: 0 <= i < |list| ==> 0 < list[i].want
    ensures PutAll(s, data) == (Copied(s, list, [Fed(r, data[Demand(list)..])] + tail, data), [])
    decreases |list|, 0
  {
    var f, list' := list[0], list[1..];
    var bs, rest := data[..f.want], data[f.want..];
    assert s.readers == [f] + (list' + ([r] + tail));
    FeedWhole(s, f, list' + ([r] + tail), data);
    var t := s.(readers := list' + ([r] + tail), accepted := s.accepted + bs, delivered := s.delivered + bs,
                log := s.log + [ReadResult(Fed(f, bs))]);
    ServeAll(t, list', r, tail, rest);
    Joined(s.accepted, data, f.want);
    Joined(s.delivered, data, f.want);
    assert rest[Demand(list')..] == data[Demand(list)..];
    Assoc(s.log, [ReadResult(Fed(f, bs))], Served(list', rest));
  }

  lemma Joined(x: seq<byte>, data: seq<byte>, i: nat)
    requires i <= |data|
    ensures (x + data[..i]) + data[i..] == x + data
  {
  }

  lemma ReaderAfterPut(t: PipeState, w: Writer, noWait: bool, i: nat)
    requires i < |t.readers|
    ensures var u := SettlePut(t.(readers := RemoveAt(t.readers, i)), w, [], noWait);
            ExpireReader(SettlePut(t, w, [], noWait), i) == u.(log := u.log + [ReadResult(t.readers[i])])
  {
  }

  /** A reader that times out while a put is copying ends, and leaves the pipe, as if it had
      timed out right after the put. */
  lemma PutWindowIsSafe(s: PipeState, who: Who, prio: int, data: seq<byte>, minXfer: nat, noWait: bool, k: nat, j: nat)
    requires Live(s) && PutSet(s, |data|, k) && k <= j < |s.readers| && (who.Async? ==> !noWait)
    requires noWait ==> minXfer <= Capacity(s)
    ensures var t := PutCall(s, who, prio, data, minXfer, noWait);
            && |t.readers| == |s.readers| - k
            && PutWithTimeout(s, Writer(who, prio, |data|, minXfer, data), noWait, k, j) == ExpireReader(t, j - k)
  {
    var list, r, tail := s.readers[..k], s.readers[k], s.readers[k + 1..];
    assert s.readers == list + ([r] + tail);
    forall i | 0 <= i < |list| ensures 0 < list[i].want { assert GoodReader(s.readers[i]); }
    ServeAll(s, list, r, tail, data);
    var first, w := Fed(r, data[Demand(list)..]), Writer(who, prio, |data|, minXfer, data);
    RemainingIs(s.readers, first, k, j);
    ReaderAfterPut(Copied(s, list, [first] + tail, data), w, noWait, j - k);
  }

  // ---------- during a get ----------

  /** The working set of a get of `n` bytes is the first `k` writers, and a writer is left
      that can post some of its data. */
  predicate GetSet(s: PipeState, n: nat, k: nat) {
    k < |s.writers| && |Stream(s.writers[..k])| <= n < |Stream(s.writers[..k])| + |s.writers[k].left|
  }

  /** `list` finished, the rest of `n` bytes taken from `w`, and the first `n` of `bytes` read,
      with `queue` left waiting. */
  function Taken(s: PipeState, list: seq<Writer>, w: Writer, queue: seq<Writer>, bytes: seq<byte>, n: nat): PipeState
    requires |Stream(list)| <= n <= |Stream(list)| + |w.left| && |s.ring| + n <= |bytes|
  {
    var t := Finish(s, list, queue);
    t.(accepted := t.accepted + w.left[..n - |Stream(list)|], ring := bytes[n..|s.ring| + n],
       delivered := s.delivered + bytes[..n])
  }

  /** A get during which writer `j` times out: it leaves the queue before the copies, which
      use the ring, the working set and, through the pointer, writer `k`; it runs, and
      reports, once the get is over. */
  function GetWithTimeout(s: PipeState, tid: nat, prio: int, n: nat, minXfer: nat, noWait: bool, k: nat,
                          j: nat): PipeState
    requires GetSet(s, n, k) && k <= j < |s.writers|
  {
    var list, w := s.writers[..k], s.writers[k];
    var first := w.(left := w.left[n - |Stream(list)|..]);
    var bytes := s.ring + (Stream(list) + w.left);
    var t := Taken(s, list, w, Remaining(s.writers, first, k, j), bytes, n);
    var u := SettleGet(t, tid, prio, n, minXfer, bytes[..n], noWait);
    u.(log := u.log + [WriteResult(if j == k then first else s.writers[j])])
  }

  /** The bytes a get moves lie in the ring, the working set and the next writer. */
  lemma EnoughBytes(s: PipeState, ws: seq<Writer>, w: Writer, tail: seq<Writer>, n: nat)
    requires s.writers == ws + ([w] + tail) && |Stream(ws)| <= n < |Stream(ws)| + |w.left|
    ensures var bytes := s.ring + (Stream(ws) + w.left);
            |s.ring| + n <= |bytes| && Reach(s) == bytes + Stream(tail)
  {
    StreamConcat(ws, [w] + tail);
    assert ([w] + tail)[1..] == tail;
    Assoc(Stream(ws), w.left, Stream(tail));
    Assoc(s.ring, Stream(ws) + w.left, Stream(tail));
  }

  lemma Prefixes<T>(a: seq<T>, b: seq<T>, i: nat, j: nat)
    requires i <= j <= |a|
    ensures (a + b)[..i] == a[..i] && (a + b)[i..j] == a[i..j]
  {
  }

  lemma GetCopies(s: PipeState, ws: seq<Writer>, w: Writer, tail: seq<Writer>, n: nat)
    requires Ready(s) && s.writers == ws + ([w] + tail) && |Stream(ws)| <= n < |Stream(ws)| + |w.left|
    ensures var bytes, first := s.ring + (Stream(ws) + w.left), w.(left := w.left[n - |Stream(ws)|..]);
            GetAll(s, n) == (Taken(s, ws, w, [first] + tail, bytes, n), bytes[..n])
  {
    GetPart(s, ws, w, tail, n);
    EnoughBytes(s, ws, w, tail, n);
    Prefixes(s.ring + (Stream(ws) + w.left), Stream(tail), n, |s.ring| + n);
  }

  lemma GetFinds(s: PipeState, tid: nat, prio: int, n: nat, minXfer: nat, noWait: bool, ws: seq<Writer>, w: Writer,
                 tail: seq<Writer>)
    requires Ready(s) && s.writers == ws + ([w] + tail) && |Stream(ws)| <= n < |Stream(ws)| + |w.left|
    requires noWait ==> minXfer <= |s.ring| + |Stream(s.writers)|
    ensures var bytes, first := s.ring + (Stream(ws) + w.left), w.(left := w.left[n - |Stream(ws)|..]);
            GetCall(s, tid, prio, n, minXfer, noWait) ==
            SettleGet(Taken(s, ws, w, [first] + tail, bytes, n), tid, prio, n, minXfer, bytes[..n], noWait)
  {
    GetCopies(s, ws, w, tail, n);
  }

  lemma WriterAfterGet(t: PipeState, tid: nat, prio: int, n: nat, minXfer: nat, bs: seq<byte>, noWait: bool, i: nat)
    requires i < |t.writers| && |bs| == n
    ensures var u := SettleGet(t.(writers := RemoveAt(t.writers, i)), tid, prio, n, minXfer, bs, noWait);
            ExpireWriter(SettleGet(t, tid, prio, n, minXfer, bs, noWait), i) ==
            u.(log := u.log + [WriteResult(t.writers[i])])
  {
  }

  /** A writer that times out while a get is copying ends, and leaves the pipe, as if it had
      timed out right after the get. */
  lemma GetWindowIsSafe(s: PipeState, tid: nat, prio: int, n: nat, minXfer: nat, noWait: bool, k: nat, j: nat)
    requires Ready(s) && GetSet(s, n, k) && k <= j < |s.writers|
    requires noWait ==> minXfer <= |s.ring| + |Stream(s.writers)|
    ensures var t := GetCall(s, tid, prio, n, minXfer, noWait);
            && |t.writers| == |s.writers| - k
            && GetWithTimeout(s, tid, prio, n, minXfer, noWait, k, j) == ExpireWriter(t, j - k)
  {
    var list, w, tail := s.writers[..k], s.writers[k], s.writers[k + 1..];
    assert s.writers == list + ([w] + tail);
    GetFinds(s, tid, prio, n, minXfer, noWait, list, w, tail);
    var bytes, first := s.ring + (Stream(list) + w.left), w.(left := w.left[n - |Stream(list)|..]);
    RemainingIs(s.writers, first, k, j);
    WriterAfterGet(Taken(s, list, w, [first] + tail, bytes, n), tid, prio, n, minXfer, bytes[..n], noWait, j - k);
  }
}
