/** Safety of a pipe over every run of puts, gets, asynchronous puts and timeouts. */
module PipeRuns {
  import opened Basics
  import opened PriorityList
  import opened PipeSpec
  import opened PipeLaws

  /** The waiting invariant: waiting readers imply an empty ring, waiting writers a full
      one, the two kinds never wait together (even when the size is 0), and every waiter
      still has bytes outstanding. */
  ghost predicate Waiting(s: PipeState) {
    && Live(s) && |s.ring| <= s.size
    && (s.readers != [] ==> s.ring == [] && s.writers == [])
    && (s.writers != [] ==> |s.ring| == s.size)
  }

  ghost predicate Ordered(s: PipeState) {
    Sorted(s.readers, ReaderPrio) && Sorted(s.writers, WriterPrio)
  }

  /** Stream integrity: what writers gave is what readers got, then the ring. */
  ghost predicate Integrity(s: PipeState) { s.accepted == s.delivered + s.ring }

  // Bytes reported to callers, and bytes moved for calls still waiting.

  function Written(log: seq<Outcome>): int {
    if log == [] then 0
    else Written(log[..|log| - 1]) +
         match log[|log| - 1] case ReadDone(_, _, _) => 0 case WriteDone(_, _, n) => n case AsyncDone(_, n) => n
  }

  function ReadTotal(log: seq<Outcome>): int {
    if log == [] then 0
    else ReadTotal(log[..|log| - 1]) +
         match log[|log| - 1] case ReadDone(_, _, bs) => |bs| case WriteDone(_, _, _) => 0 case AsyncDone(_, _) => 0
  }

  function Sent(ws: seq<Writer>): int {
    if ws == [] then 0 else ws[0].requested - |ws[0].left| + Sent(ws[1..])
  }

  function Got(rs: seq<Reader>): int {
    if rs == [] then 0 else |rs[0].got| + Got(rs[1..])
  }

  /** Bytes taken from writers that no call has reported or is still holding to report. */
  function Unreported(s: PipeState): int { |s.accepted| - Written(s.log) - Sent(s.writers) }

  /** The same on the readers' side. */
  function Undelivered(s: PipeState): int { |s.delivered| - ReadTotal(s.log) - Got(s.readers) }

  /** Every asynchronous descriptor is free or waits as a writer, once. */
  ghost predicate PoolIs(s: PipeState, pool: multiset<nat>) {
    multiset(s.asyncFree) + multiset(FinishFree(s.writers)) == pool
  }

  ghost predicate Core(s: PipeState, pool: multiset<nat>) {
    Waiting(s) && Ordered(s) && Integrity(s) && PoolIs(s, pool)
  }

  /** What holds between calls. */
  ghost predicate Inv(s: PipeState, pool: multiset<nat>) {
    Core(s, pool) && Unreported(s) == 0 && Undelivered(s) == 0
  }

  lemma Logged(log: seq<Outcome>, o: Outcome)
    ensures Written(log + [o]) == Written(log) + Written([o])
    ensures ReadTotal(log + [o]) == ReadTotal(log) + ReadTotal([o])
  {
    assert (log + [o])[..|log|] == log && [o][..0] == [];
  }

  // ---------- one byte ----------

  lemma FeedKeeps(s: PipeState, b: byte, pool: multiset<nat>)
    requires Core(s, pool) && s.readers != [] && 0 < s.readers[0].want
    ensures Core(Feed(s, [b]), pool)
    ensures Unreported(Feed(s, [b])) == Unreported(s) + 1 && Undelivered(Feed(s, [b])) == Undelivered(s)
  {
    var r := s.readers[0];
    var r' := r.(got := r.got + [b], want := r.want - 1);
    Logged(s.log, ReadResult(r'));
    var t := Feed(s, [b]);
    if r'.want > 0 { assert t.readers[1..] == s.readers[1..]; }
  }

  lemma StoreKeeps(s: PipeState, b: byte, pool: multiset<nat>)
    requires Core(s, pool) && s.readers == [] && |s.ring| < s.size
    ensures Core(Store(s, [b]), pool)
    ensures Unreported(Store(s, [b])) == Unreported(s) + 1 && Undelivered(Store(s, [b])) == Undelivered(s)
  {
    Assoc(s.delivered, s.ring, [b]);
  }

  lemma TakeOrder(s: PipeState, pool: multiset<nat>)
    requires HasOffer(s) && Sorted(s.writers, WriterPrio) && PoolIs(s, pool)
    ensures Sorted(Take(s, 1).writers, WriterPrio) && PoolIs(Take(s, 1), pool)
  {
    var w, t := s.writers[0], Take(s, 1);
    if |w.left| > 1 {
      assert t.writers[1..] == s.writers[1..];
    }
  }

  lemma TakeCounts(s: PipeState)
    requires HasOffer(s)
    ensures Unreported(Take(s, 1)) == Unreported(s) && Undelivered(Take(s, 1)) == Undelivered(s)
  {
    var w, t := s.writers[0], Take(s, 1);
    Logged(s.log, Finished(w));
    if |w.left| > 1 { assert t.writers[1..] == s.writers[1..]; }
  }

  /** The parts of `Core` and the counts after one byte was got. */
  ghost predicate OneGot(s: PipeState, t: PipeState, pool: multiset<nat>) {
    Core(t, pool) && Unreported(t) == Unreported(s) && Undelivered(t) == Undelivered(s) + 1 && t.size == s.size
  }

  lemma GetByteKeeps(s: PipeState, pool: multiset<nat>)
    requires Core(s, pool) && CanGet(s)
    ensures OneGot(s, GetByte(s).0, pool)
  {
    if s.writers != [] {
      TakeLive(s, 1);
      TakeOrder(s, pool);
      TakeCounts(s);
      TakenByte(s);
      GetByteParts(s);
      if s.ring != [] { Refilled(s.delivered, s.ring, s.writers[0].left[0]); }
      OneByteOut(s, Take(s, 1), GetByte(s).0, s.writers[0].left[0], pool);
    } else {
      Refilled(s.delivered, s.ring, 0);
    }
  }

  lemma OneByteOut(s: PipeState, u: PipeState, t: PipeState, x: byte, pool: multiset<nat>)
    requires Core(s, pool) && s.readers == [] && Live(u) && Sorted(u.writers, WriterPrio) && PoolIs(u, pool)
    requires Unreported(u) == Unreported(s) && Undelivered(u) == Undelivered(s)
    requires u.accepted == s.accepted + [x] && u.readers == [] && u.size == s.size && u.delivered == s.delivered
    requires t == u.(ring := t.ring, delivered := t.delivered) && |t.delivered| == |s.delivered| + 1
    requires |t.ring| == |s.ring| == s.size && t.delivered + t.ring == s.delivered + s.ring + [x]
    ensures OneGot(s, t, pool)
  {
  }

  lemma Refilled(delivered: seq<byte>, ring: seq<byte>, b: byte)
    requires ring != []
    ensures (delivered + [ring[0]]) + (ring[1..] + [b]) == (delivered + ring) + [b]
    ensures (delivered + [ring[0]]) + ring[1..] == delivered + ring
  {
  }

  lemma TakenByte(s: PipeState)
    requires HasOffer(s)
    ensures Take(s, 1).accepted == s.accepted + [s.writers[0].left[0]]
  {
  }

  // ---------- whole transfers ----------

  lemma {:induction false} PutAllKeeps(s: PipeState, data: seq<byte>, pool: multiset<nat>)
    requires Core(s, pool)
    ensures var (t, rest) := PutAll(s, data);
            && Core(t, pool) && |rest| <= |data| && (rest != [] ==> !CanPut(t)) && t.size == s.size
            && Unreported(t) == Unreported(s) + |data| - |rest| && Undelivered(t) == Undelivered(s)
    decreases |data|
  {
    if data != [] && CanPut(s) {
      if s.readers != [] { FeedKeeps(s, data[0], pool); } else { StoreKeeps(s, data[0], pool); }
      PutAllKeeps(PutByte(s, data[0]), data[1..], pool);
    }
  }

  lemma {:induction false} GetAllKeeps(s: PipeState, n: nat, pool: multiset<nat>)
    requires Core(s, pool)
    ensures AllGot(s, GetAll(s, n), n, pool)
    decreases n
  {
    if n > 0 && CanGet(s) {
      var t := GetByte(s).0;
      GetAllOnce(s, n);
      GetByteKeeps(s, pool);
      GetAllKeeps(t, n - 1, pool);
      GotOneMore(s, t, GetAll(t, n - 1), GetAll(s, n), n, pool);
    }
  }

  ghost predicate AllGot(s: PipeState, r: (PipeState, seq<byte>), n: nat, pool: multiset<nat>) {
    && Core(r.0, pool) && |r.1| <= n && (|r.1| < n ==> !CanGet(r.0)) && r.0.size == s.size
    && Unreported(r.0) == Unreported(s) && Undelivered(r.0) == Undelivered(s) + |r.1|
  }

  lemma GotOneMore(s: PipeState, t: PipeState, r: (PipeState, seq<byte>), q: (PipeState, seq<byte>), n: nat,
                   pool: multiset<nat>)
    requires n > 0 && OneGot(s, t, pool) && AllGot(t, r, n - 1, pool) && q.0 == r.0 && |q.1| == 1 + |r.1|
    ensures AllGot(s, q, n, pool)
  {
  }

  // ---------- pending and coming back ----------

  lemma {:induction false} SentConcat(a: seq<Writer>, b: seq<Writer>)
    ensures Sent(a + b) == Sent(a) + Sent(b)
  {
    if a == [] { assert a + b == b; } else { SentConcat(a[1..], b); assert (a + b)[1..] == a[1..] + b; }
  }

  lemma {:induction false} GotConcat(a: seq<Reader>, b: seq<Reader>)
    ensures Got(a + b) == Got(a) + Got(b)
  {
    if a == [] { assert a + b == b; } else { GotConcat(a[1..], b); assert (a + b)[1..] == a[1..] + b; }
  }

  lemma WriterMoves(a: seq<Writer>, w: Writer, b: seq<Writer>)
    ensures Sent(a + [w] + b) == Sent(a + b) + w.requested - |w.left|
    ensures multiset(FinishFree(a + [w] + b)) == multiset(FinishFree(a + b)) + multiset(Freed(w))
  {
    SentConcat(a, b);
    SentConcat(a + [w], b);
    SentConcat(a, [w]);
    StreamConcat(a, b);
    StreamConcat(a + [w], b);
    StreamConcat(a, [w]);
    assert FinishFree([w]) == Freed(w);
  }

  lemma ReaderMoves(a: seq<Reader>, r: Reader, b: seq<Reader>)
    ensures Got(a + [r] + b) == Got(a + b) + |r.got|
  {
    GotConcat(a, b);
    GotConcat(a + [r], b);
    GotConcat(a, [r]);
  }

  /** A state that differs from `s` in its writers and log only, with the counts settled. */
  lemma WritersChange(s: PipeState, t: PipeState, pool: multiset<nat>)
    requires Waiting(s) && Ordered(s) && Integrity(s)
    requires t == s.(writers := t.writers, log := t.log, asyncFree := t.asyncFree)
    requires Live(t) && Sorted(t.writers, WriterPrio) && PoolIs(t, pool)
    requires t.writers != [] ==> |s.ring| == s.size && s.readers == []
    requires Unreported(t) == 0 && ReadTotal(t.log) == ReadTotal(s.log) && Undelivered(s) == 0
    ensures Inv(t, pool)
  {
  }

  lemma InsertGood(q: seq<Writer>, w: Writer)
    requires GoodWriter(w) && forall i :: 0 <= i < |q| ==> GoodWriter(q[i])
    ensures forall i :: 0 <= i < |Insert(q, w, WriterPrio)| ==> GoodWriter(Insert(q, w, WriterPrio)[i])
  {
  }

  lemma PendWriter(s: PipeState, w: Writer, pool: multiset<nat>)
    requires Core(s, pool) && !CanPut(s) && Undelivered(s) == 0 && Unreported(s) == w.requested - |w.left|
    requires GoodWriter(w)
    ensures Inv(s.(writers := Insert(s.writers, w, WriterPrio)), pool + multiset(Freed(w)))
  {
    var q := s.writers;
    var k := Place(q, w, WriterPrio, 0);
    InsertKeepsSorted(q, w, WriterPrio);
    assert q == q[..k] + q[k..];
    WriterMoves(q[..k], w, q[k..]);
    var t := s.(writers := Insert(q, w, WriterPrio));
    assert Live(t) by { InsertGood(q, w); }
    WritersChange(s, t, pool + multiset(Freed(w)));
  }

  /** A state that differs from `s` in its readers and log only, with the counts settled. */
  lemma ReadersChange(s: PipeState, t: PipeState, pool: multiset<nat>)
    requires Core(s, pool) && t == s.(readers := t.readers, log := t.log)
    requires Live(t) && Sorted(t.readers, ReaderPrio)
    requires t.readers != [] ==> s.ring == [] && s.writers == []
    requires Undelivered(t) == 0 && Written(t.log) == Written(s.log) && Unreported(s) == 0
    ensures Inv(t, pool)
  {
  }

  lemma InsertGoodReader(q: seq<Reader>, r: Reader)
    requires GoodReader(r) && forall i :: 0 <= i < |q| ==> GoodReader(q[i])
    ensures forall i :: 0 <= i < |Insert(q, r, ReaderPrio)| ==> GoodReader(Insert(q, r, ReaderPrio)[i])
  {
  }

  lemma PendReader(s: PipeState, r: Reader, pool: multiset<nat>)
    requires Core(s, pool) && !CanGet(s) && Unreported(s) == 0 && Undelivered(s) == |r.got| && GoodReader(r)
    ensures Inv(s.(readers := Insert(s.readers, r, ReaderPrio)), pool)
  {
    var q := s.readers;
    var k := Place(q, r, ReaderPrio, 0);
    InsertKeepsSorted(q, r, ReaderPrio);
    assert q == q[..k] + q[k..];
    ReaderMoves(q[..k], r, q[k..]);
    var t := s.(readers := Insert(q, r, ReaderPrio));
    assert Live(t) by { InsertGoodReader(q, r); }
    ReadersChange(s, t, pool);
  }

  lemma PutReturns(s: PipeState, freed: seq<nat>, o: Outcome, pool: multiset<nat>)
    requires Core(s, pool) && Undelivered(s) == 0 && Unreported(s) == Written([o]) && ReadTotal([o]) == 0
    ensures Inv(s.(log := s.log + [o], asyncFree := s.asyncFree + freed), pool + multiset(freed))
  {
    Logged(s.log, o);
    var t := s.(log := s.log + [o], asyncFree := s.asyncFree + freed);
    assert multiset(t.asyncFree) == multiset(s.asyncFree) + multiset(freed);
    WritersChange(s, t, pool + multiset(freed));
  }

  lemma PutSettles(t: PipeState, w: Writer, rest: seq<byte>, noWait: bool, pool: multiset<nat>)
    requires Core(t, pool) && Undelivered(t) == 0 && Unreported(t) == w.requested - |rest|
    requires (rest != [] ==> !CanPut(t)) && |rest| <= w.requested && w.minXfer <= w.requested
    requires w.who.Async? ==> !noWait
    ensures Inv(SettlePut(t, w, rest, noWait), pool + multiset(Freed(w)))
  {
    if rest == [] {
      PutReturns(t, Freed(w), Finished(w), pool);
    } else if noWait {
      PutReturns(t, [], WriteResult(w.(left := rest)), pool);
      assert t.asyncFree + [] == t.asyncFree;
    } else {
      PendWriter(t, w.(left := rest), pool);
    }
  }

  lemma GetSettles(t: PipeState, tid: nat, prio: int, n: nat, minXfer: nat, bs: seq<byte>, noWait: bool,
                   pool: multiset<nat>)
    requires Core(t, pool) && Unreported(t) == 0 && Undelivered(t) == |bs| <= n && minXfer <= n
    requires |bs| < n ==> !CanGet(t)
    ensures Inv(SettleGet(t, tid, prio, n, minXfer, bs, noWait), pool)
  {
    var r := Reader(tid, prio, n, minXfer, bs, n - |bs|);
    if |bs| == n || noWait {
      Logged(t.log, ReadResult(r));
    } else {
      PendReader(t, r, pool);
    }
  }

  lemma PutCallKeeps(s: PipeState, who: Who, prio: int, data: seq<byte>, minXfer: nat, noWait: bool,
                     pool: multiset<nat>)
    requires Inv(s, pool) && minXfer <= |data| && (who.Async? ==> !noWait)
    ensures Inv(PutCall(s, who, prio, data, minXfer, noWait),
                pool + multiset(Freed(Writer(who, prio, |data|, minXfer, data))))
  {
    var w := Writer(who, prio, |data|, minXfer, data);
    if noWait && Capacity(s) < minXfer {
      PutReturns(s, [], WriteDone(who.tid, Eio, 0), pool);
      assert s.asyncFree + [] == s.asyncFree;
    } else {
      PutAllKeeps(s, data, pool);
      var (t, rest) := PutAll(s, data);
      PutSettles(t, w, rest, noWait, pool);
    }
  }

  lemma GetCallKeeps(s: PipeState, tid: nat, prio: int, n: nat, minXfer: nat, noWait: bool, pool: multiset<nat>)
    requires Inv(s, pool) && minXfer <= n
    ensures Inv(GetCall(s, tid, prio, n, minXfer, noWait), pool)
  {
    if noWait && |s.ring| + |Stream(s.writers)| < minXfer {
      Logged(s.log, ReadDone(tid, Eio, []));
    } else {
      GetAllKeeps(s, n, pool);
      var (t, bs) := GetAll(s, n);
      GetSettles(t, tid, prio, n, minXfer, bs, noWait, pool);
    }
  }

  /** A waiting reader's timeout takes it off the queue with what it has. */
  function ExpireReader(s: PipeState, i: nat): PipeState
    requires i < |s.readers|
  {
    s.(readers := RemoveAt(s.readers, i), log := s.log + [ReadResult(s.readers[i])])
  }

  function ExpireWriter(s: PipeState, i: nat): PipeState
    requires i < |s.writers|
  {
    s.(writers := RemoveAt(s.writers, i), log := s.log + [WriteResult(s.writers[i])])
  }

  lemma ExpireReaderKeeps(s: PipeState, i: nat, pool: multiset<nat>)
    requires Inv(s, pool) && i < |s.readers|
    ensures Inv(ExpireReader(s, i), pool)
  {
    var q := s.readers;
    RemoveKeepsSorted(q, i, ReaderPrio);
    SplitAt(q, i);
    ReaderMoves(q[..i], q[i], q[i + 1..]);
    Logged(s.log, ReadResult(q[i]));
    var t := ExpireReader(s, i);
    assert forall j :: 0 <= j < |t.readers| ==> t.readers[j] == q[if j < i then j else j + 1];
    ReadersChange(s, t, pool);
  }

  lemma ExpireWriterBooks(s: PipeState, i: nat, pool: multiset<nat>)
    requires PoolIs(s, pool) && i < |s.writers| && s.writers[i].who.Caller?
    ensures var t := ExpireWriter(s, i);
            PoolIs(t, pool) && Unreported(t) == Unreported(s) && ReadTotal(t.log) == ReadTotal(s.log)
  {
    var q := s.writers;
    SplitAt(q, i);
    WriterMoves(q[..i], q[i], q[i + 1..]);
    Logged(s.log, WriteResult(q[i]));
  }

  lemma ExpireWriterKeeps(s: PipeState, i: nat, pool: multiset<nat>)
    requires Inv(s, pool) && i < |s.writers| && s.writers[i].who.Caller?
    ensures Inv(ExpireWriter(s, i), pool)
  {
    var q, t := s.writers, ExpireWriter(s, i);
    RemoveKeepsSorted(q, i, WriterPrio);
    ExpireWriterBooks(s, i, pool);
    assert Live(t) by {
      assert forall j :: 0 <= j < |t.writers| ==> t.writers[j] == q[if j < i then j else j + 1];
    }
    WritersChange(s, t, pool);
  }

  // ---------- runs ----------

  datatype Event =
    | Put(tid: nat, prio: int, data: seq<byte>, minXfer: nat, noWait: bool)
    | Get(tid: nat, prio: int, n: nat, minXfer: nat, noWait: bool)
    | BlockPut(prio: int, data: seq<byte>)
    | ReaderTimeout(i: nat)
    | WriterTimeout(i: nat)

  /** The callers' obligations (`min_xfer` within the request), and a waiter that can time
      out (asynchronous writers wait forever). */
  predicate Enabled(s: PipeState, e: Event) {
    match e
    case Put(_, _, data, minXfer, _) => minXfer <= |data|
    case Get(_, _, n, minXfer, _) => minXfer <= n
    case BlockPut(_, _) => true
    case ReaderTimeout(i) => i < |s.readers|
    case WriterTimeout(i) => i < |s.writers| && s.writers[i].who.Caller?
  }

  /** `k_pipe_block_put`: pop a descriptor, then put with no minimum short of everything.
      Without a free descriptor its caller waits for one and nothing happens. */
  function BlockPutCall(s: PipeState, prio: int, data: seq<byte>): PipeState {
    var k := |s.asyncFree| - 1;
    if k < 0 then s else PutCall(s.(asyncFree := s.asyncFree[..k]), Async(s.asyncFree[k]), prio, data, |data|, false)
  }

  function Step(s: PipeState, e: Event): PipeState
    requires Enabled(s, e)
  {
    match e
    case Put(tid, prio, data, minXfer, noWait) => PutCall(s, Caller(tid), prio, data, minXfer, noWait)
    case Get(tid, prio, n, minXfer, noWait) => GetCall(s, tid, prio, n, minXfer, noWait)
    case BlockPut(prio, data) => BlockPutCall(s, prio, data)
    case ReaderTimeout(i) => ExpireReader(s, i)
    case WriterTimeout(i) => ExpireWriter(s, i)
  }

  ghost predicate Follows(s: PipeState, e: Event, t: PipeState) { Enabled(s, e) && t == Step(s, e) }

  ghost predicate IsRun(states: seq<PipeState>, events: seq<Event>) {
    && |states| == |events| + 1
    && forall i {:trigger events[i]} :: 0 <= i < |events| ==> Follows(states[i], events[i], states[i + 1])
  }

  /** `k_pipe_init`, with a pool of free asynchronous descriptors. */
  function Init(size: nat, free: seq<nat>): PipeState { PipeState(size, [], [], [], free, [], [], []) }

  lemma PopKeeps(s: PipeState, free: seq<nat>, d: nat, pool: multiset<nat>)
    requires Inv(s, pool) && s.asyncFree == free + [d]
    ensures d in pool && Inv(s.(asyncFree := free), pool - multiset{d})
  {
    assert multiset(s.asyncFree) == multiset(free) + multiset{d};
    WritersChange(s, s.(asyncFree := free), pool - multiset{d});
  }

  lemma BlockPutKeeps(s: PipeState, prio: int, data: seq<byte>, pool: multiset<nat>)
    requires Inv(s, pool)
    ensures Inv(BlockPutCall(s, prio, data), pool)
  {
    if s.asyncFree == [] { return; }
    var k := |s.asyncFree| - 1;
    var free, d := s.asyncFree[..k], s.asyncFree[k];
    PopKeeps(s, free, d, pool);
    PutCallKeeps(s.(asyncFree := free), Async(d), prio, data, |data|, false, pool - multiset{d});
    Pushed(pool, d);
  }

  lemma Pushed(pool: multiset<nat>, d: nat)
    requires d in pool
    ensures (pool - multiset{d}) + multiset([d]) == pool && pool + multiset([]) == pool
  {
  }

  lemma StepKeeps(s: PipeState, e: Event, pool: multiset<nat>)
    requires Inv(s, pool) && Enabled(s, e)
    ensures Inv(Step(s, e), pool)
  {
    match e
    case Put(tid, prio, data, minXfer, noWait) => PutKeeps(s, tid, prio, data, minXfer, noWait, pool);
    case Get(tid, prio, n, minXfer, noWait) => GetCallKeeps(s, tid, prio, n, minXfer, noWait, pool);
    case BlockPut(prio, data) => BlockPutKeeps(s, prio, data, pool);
    case ReaderTimeout(i) => ExpireReaderKeeps(s, i, pool);
    case WriterTimeout(i) => ExpireWriterKeeps(s, i, pool);
  }

  lemma PutKeeps(s: PipeState, tid: nat, prio: int, data: seq<byte>, minXfer: nat, noWait: bool, pool: multiset<nat>)
    requires Inv(s, pool) && minXfer <= |data|
    ensures Inv(PutCall(s, Caller(tid), prio, data, minXfer, noWait), pool)
  {
    PutCallKeeps(s, Caller(tid), prio, data, minXfer, noWait, pool);
    assert pool + multiset(Freed(Writer(Caller(tid), prio, |data|, minXfer, data))) == pool;
  }

  lemma InitHolds(size: nat, free: seq<nat>)
    ensures Inv(Init(size, free), multiset(free))
  {
  }

  lemma FollowsKeeps(s: PipeState, e: Event, t: PipeState, pool: multiset<nat>)
    requires Inv(s, pool) && Follows(s, e, t)
    ensures Inv(t, pool)
  {
    StepKeeps(s, e, pool);
  }

  lemma Taken(states: seq<PipeState>, events: seq<Event>, i: nat, s: PipeState, e: Event, t: PipeState)
    requires IsRun(states, events) && i < |events| && s == states[i] && e == events[i] && t == states[i + 1]
    ensures Follows(s, e, t)
  {
  }

  /** In every state of every run: stream integrity, the waiting invariant, both queues in
      priority order, every count reported to a caller true, every descriptor accounted for. */
  lemma {:induction false} EveryRunIsSafe(size: nat, free: seq<nat>, states: seq<PipeState>, events: seq<Event>, n: nat)
    requires IsRun(states, events) && states[0] == Init(size, free) && n < |states|
    ensures Inv(states[n], multiset(free))
    decreases n
  {
    if n == 0 {
      InitHolds(size, free);
    } else {
      var s, e, t := states[n - 1], events[n - 1], states[n];
      Taken(states, events, n - 1, s, e, t);
      EveryRunIsSafe(size, free, states, events, n - 1);
      FollowsKeeps(s, e, t, multiset(free));
    }
  }

  // ---------- K_NO_WAIT ----------

  /** A put that may not wait fails with -EIO exactly when the minimum cannot be met, and
      then changes nothing; otherwise it moves all it can, at least the minimum, and
      reports success.  It never reports -EAGAIN and never pends. */
  lemma PutNoWait(s: PipeState, tid: nat, prio: int, data: seq<byte>, minXfer: nat)
    requires Waiting(s) && minXfer <= |data|
    ensures var t := PutCall(s, Caller(tid), prio, data, minXfer, true);
            var k := Min(|data|, Capacity(s));
            && t.writers == s.writers && t.log != []
            && (Capacity(s) < minXfer ==> t == s.(log := s.log + [WriteDone(tid, Eio, 0)]))
            && (minXfer <= Capacity(s) ==> t.log[|t.log| - 1] == WriteDone(tid, Ok, k) && minXfer <= k)
  {
    PutAmount(s, data);
    if minXfer <= Capacity(s) {
      var (t, rest) := PutAll(s, data);
      SettleReports(t, Writer(Caller(tid), prio, |data|, minXfer, data), rest);
    }
  }

  /** What a put that may not wait reports once `rest` could not be moved. */
  lemma SettleReports(t: PipeState, w: Writer, rest: seq<byte>)
    requires w.who.Caller? && |rest| <= w.requested && w.minXfer <= w.requested - |rest|
    ensures SettlePut(t, w, rest, true).log == t.log + [WriteDone(w.who.tid, Ok, w.requested - |rest|)]
    ensures SettlePut(t, w, rest, true).writers == t.writers
  {
  }

  lemma GetNoWait(s: PipeState, tid: nat, prio: int, n: nat, minXfer: nat)
    requires Waiting(s) && minXfer <= n
    ensures var t := GetCall(s, tid, prio, n, minXfer, true);
            var k := Min(n, |Reach(s)|);
            && t.readers == s.readers && t.log != []
            && (|Reach(s)| < minXfer ==> t == s.(log := s.log + [ReadDone(tid, Eio, [])]))
            && (minXfer <= |Reach(s)| ==> t.log[|t.log| - 1] == ReadDone(tid, Ok, Reach(s)[..k]) && minXfer <= k)
  {
    GetAmount(s, n);
    GetAllReaders(s, n);
  }
}
