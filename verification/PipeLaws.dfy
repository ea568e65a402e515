/** Closed forms of the byte-at-a-time pipe: how many bytes a call moves, from where to
    where, and which waiters it completes. */
module PipeLaws {
  import opened Basics
  import opened PipeSpec

  // ---------- putting ----------

  predicate GoodReader(r: Reader) { 0 < r.want && r.requested == |r.got| + r.want && r.minXfer <= r.requested }

  predicate GoodWriter(w: Writer) { 0 < |w.left| <= w.requested && w.minXfer <= w.requested }

  /** Every waiter still has bytes outstanding. */
  ghost predicate Live(s: PipeState) {
    && (forall i :: 0 <= i < |s.readers| ==> GoodReader(s.readers[i]))
    && (forall i :: 0 <= i < |s.writers| ==> GoodWriter(s.writers[i]))
  }

  lemma Assoc<T>(x: seq<T>, y: seq<T>, z: seq<T>)
    ensures (x + y) + z == x + (y + z)
  {
  }

  lemma Cut<T>(x: seq<T>, i: nat, j: nat)
    requires i <= j <= |x|
    ensures x[..i] + x[i..][..j - i] == x[..j] && x[i..][j - i..] == x[j..]
  {
  }

  lemma FeedFeed(s: PipeState, a: seq<byte>, b: seq<byte>)
    requires s.readers != [] && |a| + |b| <= s.readers[0].want && |a| < s.readers[0].want
    ensures Feed(Feed(s, a), b) == Feed(s, a + b)
  {
    Assoc(s.readers[0].got, a, b);
    Assoc(s.accepted, a, b);
    Assoc(s.delivered, a, b);
    assert Feed(s, a).readers[1..] == s.readers[1..];
  }

  /** Bytes up to the first reader's demand may be handed over in one copy. */
  lemma {:induction false} PutAllFeeds(s: PipeState, data: seq<byte>, k: nat)
    requires s.readers != [] && 0 < k <= |data| && k <= s.readers[0].want
    ensures PutAll(s, data) == PutAll(Feed(s, data[..k]), data[k..])
    decreases k
  {
    assert data[..1] == [data[0]];
    if k > 1 {
      PutAllFeeds(PutByte(s, data[0]), data[1..], k - 1);
      FeedFeed(s, [data[0]], data[1..][..k - 1]);
      Cut(data, 1, k);
    }
  }

  /** A reader whose demand is met in full leaves the queue. */
  lemma FeedWhole(s: PipeState, r: Reader, tail: seq<Reader>, data: seq<byte>)
    requires s.readers == [r] + tail && 0 < r.want <= |data|
    ensures var bs := data[..r.want];
            PutAll(s, data) == PutAll(s.(readers := tail, accepted := s.accepted + bs, delivered := s.delivered + bs,
                                         log := s.log + [ReadResult(r.(got := r.got + bs, want := 0))]),
                                      data[r.want..])
  {
    PutAllFeeds(s, data, r.want);
    assert s.readers[1..] == tail;
  }

  /** A reader that wants more than is left takes it all and stays first in the queue. */
  lemma FeedPart(s: PipeState, data: seq<byte>)
    requires s.readers != [] && |data| < s.readers[0].want
    ensures var r := s.readers[0];
            PutAll(s, data) == (s.(readers := [r.(got := r.got + data, want := r.want - |data|)] + s.readers[1..],
                                   accepted := s.accepted + data, delivered := s.delivered + data), [])
  {
    if data == [] {
      Unchanged(s, data);
    } else {
      assert data[..|data|] == data && data[|data|..] == [];
      PutAllFeeds(s, data, |data|);
      assert PutAll(Feed(s, data), []) == (Feed(s, data), []);
    }
  }

  lemma Unchanged(s: PipeState, none: seq<byte>)
    requires s.readers != [] && none == []
    ensures var r := s.readers[0];
            s == s.(readers := [r.(got := r.got + none, want := r.want - |none|)] + s.readers[1..],
                    accepted := s.accepted + none, delivered := s.delivered + none)
  {
    var r := s.readers[0];
    assert r.got + none == r.got && s.accepted + none == s.accepted && s.delivered + none == s.delivered;
    assert s.readers == [r] + s.readers[1..];
  }

  /** With no reader waiting, what fits goes into the ring. */
  lemma {:induction false} PutAllStores(s: PipeState, data: seq<byte>)
    requires s.readers == [] && |s.ring| <= s.size
    ensures var k := Min(|data|, s.size - |s.ring|); PutAll(s, data) == (Store(s, data[..k]), data[k..])
    decreases |data|
  {
    var k := Min(|data|, s.size - |s.ring|);
    if k == 0 {
      assert data[..k] == [] && data[k..] == data;
      assert Store(s, []) == s;
    } else {
      PutAllStores(PutByte(s, data[0]), data[1..]);
      assert [data[0]] + data[1..][..k - 1] == data[..k];
      assert (s.ring + [data[0]]) + data[1..][..k - 1] == s.ring + data[..k];
      assert (s.accepted + [data[0]]) + data[1..][..k - 1] == s.accepted + data[..k];
      assert data[1..][k - 1..] == data[k..];
    }
  }

  lemma FeedDemand(s: PipeState, bs: seq<byte>)
    requires s.readers != [] && |bs| <= s.readers[0].want
    ensures Demand(Feed(s, bs).readers) == Demand(s.readers) - |bs|
  {
    assert Feed(s, bs).readers != [] && |bs| < s.readers[0].want ==> Feed(s, bs).readers[1..] == s.readers[1..];
  }

  /** `k` bytes of the data moved, the rest left. */
  ghost predicate Moves(s: PipeState, data: seq<byte>, k: int, r: (PipeState, seq<byte>)) {
    && 0 <= k <= |data| && r.1 == data[k..] && r.0.accepted == s.accepted + data[..k]
    && Capacity(r.0) == Capacity(s) - k && |r.0.ring| <= r.0.size == s.size && r.0.writers == s.writers
    && (r.1 != [] ==> !CanPut(r.0))
  }

  lemma StoresMoves(s: PipeState, data: seq<byte>)
    requires s.readers == [] && |s.ring| <= s.size
    ensures Moves(s, data, Min(|data|, Capacity(s)), PutAll(s, data))
  {
    PutAllStores(s, data);
  }

  lemma FeedLive(s: PipeState, bs: seq<byte>)
    requires Live(s) && s.readers != [] && |bs| <= s.readers[0].want
    ensures Live(Feed(s, bs))
  {
    assert GoodReader(s.readers[0]);
  }

  /** The first reader got `data[..k]`, and then `data[k..m]` moved. */
  lemma MovesMore(s: PipeState, data: seq<byte>, k: nat, m: nat, r: (PipeState, seq<byte>))
    requires s.readers != [] && 0 < k <= m <= |data| && k <= s.readers[0].want
    requires Moves(Feed(s, data[..k]), data[k..], m - k, r)
    ensures Moves(s, data, m, r)
  {
    FeedDemand(s, data[..k]);
    Cut(data, k, m);
    Assoc(s.accepted, data[..k], data[k..][..m - k]);
  }

  /** A put moves exactly min(request, waiting demand + free space) bytes, a prefix of the
      data, and stops short only when no reader waits and the ring is full. */
  lemma {:induction false} PutAmount(s: PipeState, data: seq<byte>)
    requires Live(s) && |s.ring| <= s.size
    ensures Moves(s, data, Min(|data|, Capacity(s)), PutAll(s, data))
    decreases |data|
  {
    if s.readers == [] {
      StoresMoves(s, data);
    } else if data == [] {
      assert data[..0] == [] && s.accepted + [] == s.accepted;
    } else {
      var k := Min(s.readers[0].want, |data|);
      assert GoodReader(s.readers[0]);
      PutAllFeeds(s, data, k);
      FeedLive(s, data[..k]);
      FeedDemand(s, data[..k]);
      PutAmount(Feed(s, data[..k]), data[k..]);
      MovesMore(s, data, k, Min(|data|, Capacity(s)), PutAll(s, data));
    }
  }

  // ---------- getting ----------

  lemma {:induction false} StreamConcat(a: seq<Writer>, b: seq<Writer>)
    ensures Stream(a + b) == Stream(a) + Stream(b)
    ensures FinishLog(a + b) == FinishLog(a) + FinishLog(b)
    ensures FinishFree(a + b) == FinishFree(a) + FinishFree(b)
  {
    if a == [] {
      assert a + b == b;
    } else {
      StreamConcat(a[1..], b);
      assert (a + b)[1..] == a[1..] + b;
      Assoc(a[0].left, Stream(a[1..]), Stream(b));
      Assoc([Finished(a[0])], FinishLog(a[1..]), FinishLog(b));
      Assoc(Freed(a[0]), FinishFree(a[1..]), FinishFree(b));
    }
  }

  /** The writers' side of a get: `d` bytes taken from the front of the queue. */
  function Drain(s: PipeState, d: nat): PipeState
    decreases d
  {
    if d == 0 || !HasOffer(s) then s else Drain(Take(s, 1), d - 1)
  }

  lemma TakeStream(s: PipeState, k: nat)
    requires s.writers != [] && k <= |s.writers[0].left|
    ensures Stream(Take(s, k).writers) == Stream(s.writers)[k..]
  {
    var w := s.writers[0];
    if k == |w.left| {
      assert Stream(s.writers)[k..] == Stream(s.writers[1..]);
    } else {
      var ws := [w.(left := w.left[k..])] + s.writers[1..];
      assert ws[1..] == s.writers[1..];
      assert (w.left + Stream(s.writers[1..]))[k..] == w.left[k..] + Stream(s.writers[1..]);
    }
  }

  /** The ring and the reader's side play no part in `Drain`. */
  lemma {:induction false} DrainFrame(s: PipeState, ring: seq<byte>, delivered: seq<byte>, d: nat)
    ensures Drain(s.(ring := ring, delivered := delivered), d) == Drain(s, d).(ring := ring, delivered := delivered)
    decreases d
  {
    if d > 0 && HasOffer(s) {
      DrainFrame(Take(s, 1), ring, delivered, d - 1);
    }
  }

  lemma TakeTake(s: PipeState, i: nat, j: nat)
    requires s.writers != [] && i + j <= |s.writers[0].left| && i < |s.writers[0].left|
    ensures Take(Take(s, i), j) == Take(s, i + j)
  {
    var left := s.writers[0].left;
    Cut(left, i, i + j);
    Assoc(s.accepted, left[..i], left[i..][..j]);
    assert Take(s, i).writers[1..] == s.writers[1..];
  }

  /** `k` bytes of the first writer may be taken in one copy. */
  lemma {:induction false} DrainTakes(s: PipeState, k: nat, d: nat)
    requires s.writers != [] && 0 < k <= |s.writers[0].left| && k <= d
    ensures Drain(s, d) == Drain(Take(s, k), d - k)
    decreases k
  {
    if k > 1 {
      TakeTake(s, 1, k - 1);
      DrainTakes(Take(s, 1), k - 1, d - 1);
    }
  }

  /** The state once all of `ws` have finished. */
  function Finish(s: PipeState, ws: seq<Writer>, rest: seq<Writer>): PipeState {
    s.(writers := rest, accepted := s.accepted + Stream(ws),
       log := s.log + FinishLog(ws), asyncFree := s.asyncFree + FinishFree(ws))
  }

  lemma FinishOne(s: PipeState, w: Writer, ws: seq<Writer>, rest: seq<Writer>)
    requires s.writers == [w] + ws + rest
    ensures Finish(Take(s, |w.left|), ws, rest) == Finish(s, [w] + ws, rest)
  {
    var t := Take(s, |w.left|);
    assert w.left[..|w.left|] == w.left;
    StreamConcat([w], ws);
    assert Stream([w]) == w.left && FinishLog([w]) == [Finished(w)] && FinishFree([w]) == Freed(w);
    Assoc(s.accepted, w.left, Stream(ws));
    Assoc(s.log, [Finished(w)], FinishLog(ws));
    Assoc(s.asyncFree, Freed(w), FinishFree(ws));
  }

  /** Draining whole writers completes exactly these, in queue order. */
  lemma {:induction false} DrainWhole(s: PipeState, ws: seq<Writer>, rest: seq<Writer>, d: nat)
    requires s.writers == ws + rest && |Stream(ws)| <= d && forall i :: 0 <= i < |ws| ==> ws[i].left != []
    ensures Drain(s, d) == Drain(Finish(s, ws, rest), d - |Stream(ws)|)
    decreases |ws|
  {
    if ws == [] {
      assert Finish(s, ws, rest) == s;
    } else {
      var w, ws' := ws[0], ws[1..];
      assert ws == [w] + ws';
      TakeFirst(s, w, ws', rest);
      DrainTakes(s, |w.left|, d);
      DrainWhole(Take(s, |w.left|), ws', rest, d - |w.left|);
      FinishOne(s, w, ws', rest);
    }
  }

  lemma TakeFirst(s: PipeState, w: Writer, ws: seq<Writer>, rest: seq<Writer>)
    requires s.writers == [w] + ws + rest
    ensures Take(s, |w.left|).writers == ws + rest
  {
    assert s.writers[1..] == ws + rest;
  }

  /** All bytes a get can reach: the ring, then the waiting writers in queue order. */
  function Reach(s: PipeState): seq<byte> { s.ring + Stream(s.writers) }

  /** The state after the first `m` reachable bytes were read and the writers gave up `d`. */
  function Shifted(s: PipeState, m: nat, d: nat): PipeState
    requires m <= |s.ring| + d && d <= |Stream(s.writers)|
  {
    var a := Reach(s);
    Drain(s, d).(ring := a[m..|s.ring| + d], delivered := s.delivered + a[..m])
  }

  lemma ReachRefill(ring: seq<byte>, w: seq<byte>)
    requires ring != [] && w != []
    ensures (ring[1..] + [w[0]]) + w[1..] == (ring + w)[1..]
  {
  }

  lemma TakeLive(s: PipeState, k: nat)
    requires Live(s) && s.writers != [] && k <= |s.writers[0].left|
    ensures Live(Take(s, k))
  {
  }

  ghost predicate Ready(s: PipeState) {
    Live(s) && |s.ring| <= s.size && (s.writers != [] ==> |s.ring| == s.size)
  }

  lemma GetByteShifts(s: PipeState)
    requires Ready(s) && CanGet(s)
    ensures Ready(GetByte(s).0)
    ensures GetByte(s).1 == Reach(s)[0] && Reach(GetByte(s).0) == Reach(s)[1..]
    ensures |Stream(GetByte(s).0.writers)| == |Stream(s.writers)| - if s.writers == [] then 0 else 1
  {
    if s.writers != [] {
      TakeStream(s, 1);
      TakeLive(s, 1);
      if s.ring != [] { ReachRefill(s.ring, Stream(s.writers)); }
    }
  }

  /** A get reads exactly the first min(request, bytes used + waiting supply) reachable
      bytes in order, and moves as many of the writers' bytes out of their hands as it
      read (or all they have). */
  lemma {:induction false} GetAmount(s: PipeState, n: nat)
    requires Ready(s)
    ensures GetIsShift(s, n)
    decreases n
  {
    if n == 0 || !CanGet(s) {
      GetNone(s);
    } else {
      GetByteShifts(s);
      GetAmount(GetByte(s).0, n - 1);
      GetOneMore(s, n);
    }
  }

  ghost predicate GetIsShift(s: PipeState, n: nat) {
    var m := Min(n, |Reach(s)|);
    var d := Min(m, |Stream(s.writers)|);
    m <= |s.ring| + d && GetAll(s, n) == (Shifted(s, m, d), Reach(s)[..m])
  }

  lemma GetAllOnce(s: PipeState, n: nat)
    requires n > 0 && CanGet(s)
    ensures GetAll(s, n) == (GetAll(GetByte(s).0, n - 1).0, [GetByte(s).1] + GetAll(GetByte(s).0, n - 1).1)
  {
  }

  /** The counts of `GetIsShift` before and after a byte is got. */
  lemma ShiftCounts(s: PipeState, n: nat, m: nat, d: nat)
    requires n > 0 && Ready(s) && CanGet(s) && m == Min(n, |Reach(s)|) && d == Min(m, |Stream(s.writers)|)
    ensures var t, d' := GetByte(s).0, if s.writers == [] then 0 else d - 1;
            && 0 < m <= |s.ring| + d && (s.writers != [] ==> d > 0)
            && m - 1 == Min(n - 1, |Reach(t)|) && d' == Min(m - 1, |Stream(t.writers)|)
  {
    GetByteShifts(s);
    assert s.writers != [] ==> s.writers[0].left != [];
  }

  lemma GetOneMore(s: PipeState, n: nat)
    requires n > 0 && Ready(s) && CanGet(s) && GetIsShift(GetByte(s).0, n - 1)
    ensures GetIsShift(s, n)
  {
    var m := Min(n, |Reach(s)|);
    var d := Min(m, |Stream(s.writers)|);
    GetAllOnce(s, n);
    ShiftCounts(s, n, m, d);
    GetByteShifts(s);
    PrefixHead(Reach(s), m);
    ShiftOne(s, m, d);
  }

  lemma ShiftOne(s: PipeState, m: nat, d: nat)
    requires Ready(s) && CanGet(s) && (s.writers != [] ==> d > 0)
    requires 0 < m <= |s.ring| + d && d <= |Stream(s.writers)|
    ensures var t := GetByte(s).0;
            var d' := if s.writers == [] then 0 else d - 1;
            && m - 1 <= |t.ring| + d' && d' <= |Stream(t.writers)|
            && Shifted(t, m - 1, d') == Shifted(s, m, d)
  {
    if s.writers == [] { ShiftRing(s, m); } else { ShiftWriters(s, m, d); }
  }

  lemma PrefixHead<T>(a: seq<T>, m: nat)
    requires 0 < m <= |a|
    ensures [a[0]] + a[1..][..m - 1] == a[..m]
  {
  }

  lemma GetNone(s: PipeState)
    ensures Shifted(s, 0, 0) == s && Reach(s)[..0] == []
  {
    assert Reach(s)[0..|s.ring|] == s.ring;
  }

  lemma ShiftRing(s: PipeState, m: nat)
    requires Ready(s) && s.writers == [] && 0 < m <= |s.ring|
    ensures m - 1 <= |GetByte(s).0.ring| && Shifted(GetByte(s).0, m - 1, 0) == Shifted(s, m, 0)
  {
    GetByteShifts(s);
    var a := Reach(s);
    PrefixHead(a, m);
    Assoc(s.delivered, [a[0]], a[1..][..m - 1]);
    Window(a, 1, m, |s.ring|);
  }

  lemma GetByteParts(s: PipeState)
    requires Ready(s) && s.writers != []
    ensures HasOffer(s) && CanGet(s)
    ensures var t := GetByte(s).0;
            && |t.ring| == |s.ring| && t.delivered == s.delivered + [Reach(s)[0]]
            && t == Take(s, 1).(ring := t.ring, delivered := t.delivered)
  {
  }

  lemma ShiftWriters(s: PipeState, m: nat, d: nat)
    requires Ready(s) && s.writers != [] && 0 < d <= |Stream(s.writers)| && 0 < m <= |s.ring| + d
    ensures CanGet(s)
    ensures var t := GetByte(s).0;
            && m - 1 <= |t.ring| + d - 1 && d - 1 <= |Stream(t.writers)|
            && Shifted(t, m - 1, d - 1) == Shifted(s, m, d)
  {
    GetByteParts(s);
    GetByteShifts(s);
    ShiftStep(s, GetByte(s).0, m, d);
  }

  lemma ShiftStep(s: PipeState, t: PipeState, m: nat, d: nat)
    requires HasOffer(s) && |t.ring| == |s.ring| && Reach(t) == Reach(s)[1..]
    requires t == Take(s, 1).(ring := t.ring, delivered := t.delivered)
    requires |Stream(t.writers)| == |Stream(s.writers)| - 1
    requires t.delivered == s.delivered + [Reach(s)[0]]
    requires 0 < d <= |Stream(s.writers)| && 0 < m <= |s.ring| + d
    ensures Shifted(t, m - 1, d - 1) == Shifted(s, m, d)
  {
    var a := Reach(s);
    PrefixHead(a, m);
    Assoc(s.delivered, [a[0]], a[1..][..m - 1]);
    Window(a, 1, m, |s.ring| + d);
    DrainFrame(Take(s, 1), t.ring, t.delivered, d - 1);
  }

  lemma Window<T>(a: seq<T>, i: nat, m: nat, n: nat)
    requires i <= m <= n <= |a|
    ensures a[i..][m - i..n - i] == a[m..n]
  {
  }

  /** A request that covers all waiting writers completes them all. */
  lemma GetWhole(s: PipeState, n: nat)
    requires Ready(s) && |Stream(s.writers)| <= n
    ensures var m := Min(n, |Reach(s)|);
            GetAll(s, n) == (Finish(s, s.writers, []).(ring := Reach(s)[m..], delivered := s.delivered + Reach(s)[..m]),
                             Reach(s)[..m])
  {
    var m := Min(n, |Reach(s)|);
    GetAmountAs(s, n, m, |Stream(s.writers)|);
    ShiftedWhole(s, m);
  }

  lemma ShiftedWhole(s: PipeState, m: nat)
    requires Live(s) && m <= |Reach(s)|
    ensures Shifted(s, m, |Stream(s.writers)|)
         == Finish(s, s.writers, []).(ring := Reach(s)[m..], delivered := s.delivered + Reach(s)[..m])
  {
    var ws, a := s.writers, Reach(s);
    assert ws == ws + [];
    DrainWhole(s, ws, [], |Stream(ws)|);
    assert a[m..|a|] == a[m..];
  }

  /** Otherwise the writers that fit are completed and the next one gives up exactly the
      part of the request they leave, which is less than it has. */
  lemma GetPart(s: PipeState, ws: seq<Writer>, w: Writer, tail: seq<Writer>, n: nat)
    requires Ready(s) && s.writers == ws + ([w] + tail) && |Stream(ws)| <= n < |Stream(ws)| + |w.left|
    ensures var j := n - |Stream(ws)|;
            var t := Finish(s, ws, [w.(left := w.left[j..])] + tail);
            && |s.ring| + n <= |Reach(s)|
            && GetAll(s, n) == (t.(accepted := t.accepted + w.left[..j], ring := Reach(s)[n..|s.ring| + n],
                                   delivered := s.delivered + Reach(s)[..n]), Reach(s)[..n])
  {
    PartBounds(s, ws, w, tail, n);
    GetAmountAs(s, n, n, n);
    assert forall i :: 0 <= i < |ws| ==> ws[i] == s.writers[i];
    DrainPart(s, ws, w, tail, n);
  }

  lemma GetAmountAs(s: PipeState, n: nat, m: nat, d: nat)
    requires Ready(s) && m == Min(n, |Reach(s)|) && d == Min(m, |Stream(s.writers)|)
    ensures m <= |s.ring| + d && GetAll(s, n) == (Shifted(s, m, d), Reach(s)[..m])
  {
    GetAmount(s, n);
  }

  lemma PartBounds(s: PipeState, ws: seq<Writer>, w: Writer, tail: seq<Writer>, n: nat)
    requires s.writers == ws + ([w] + tail) && |Stream(ws)| <= n < |Stream(ws)| + |w.left|
    ensures n < |Stream(s.writers)| && |s.ring| + n <= |Reach(s)|
  {
    StreamConcat(ws, [w] + tail);
    assert ([w] + tail)[1..] == tail;
  }

  lemma DrainPart(s: PipeState, ws: seq<Writer>, w: Writer, tail: seq<Writer>, n: nat)
    requires s.writers == ws + ([w] + tail) && |Stream(ws)| <= n < |Stream(ws)| + |w.left|
    requires forall i :: 0 <= i < |ws| ==> ws[i].left != []
    ensures var j := n - |Stream(ws)|;
            var t := Finish(s, ws, [w.(left := w.left[j..])] + tail);
            Drain(s, n) == t.(accepted := t.accepted + w.left[..j])
  {
    var rest, j := [w] + tail, n - |Stream(ws)|;
    DrainWhole(s, ws, rest, n);
    assert rest[1..] == tail;
    var t := Finish(s, ws, rest);
    if j > 0 {
      DrainTakes(t, j, j);
    } else {
      assert w.left[0..] == w.left && t.accepted + w.left[..0] == t.accepted;
    }
  }

  /** A get leaves the waiting readers alone. */
  lemma {:induction false} GetAllReaders(s: PipeState, n: nat)
    ensures GetAll(s, n).0.readers == s.readers
    decreases n
  {
    if n > 0 && CanGet(s) { GetAllReaders(GetByte(s).0, n - 1); }
  }
}
