/** Which thread got which bytes of a pipe, and in which order.

    A run's deliveries are tagged with the thread they went to.  In every run the bytes
    tagged with a thread are, in order, what its finished reads returned and what its
    waiting read holds. */
module PipeReads {
  import opened Basics
  import opened PriorityList
  import opened PipeSpec
  import opened PipeLaws
  import opened PipeRuns

  datatype Tag<T> = Tag(who: T, b: byte)

  /** The bytes alone, and those tagged with `t`. */
  function Plain<T>(ts: seq<Tag<T>>): (r: seq<byte>)
    ensures |r| == |ts|
  {
    if ts == [] then [] else Plain(ts[..|ts| - 1]) + [ts[|ts| - 1].b]
  }

  function Mine<T(==)>(ts: seq<Tag<T>>, t: T): seq<byte> {
    if ts == [] then []
    else Mine(ts[..|ts| - 1], t) + if ts[|ts| - 1].who == t then [ts[|ts| - 1].b] else []
  }

  lemma TagPush<T>(ts: seq<Tag<T>>, g: Tag<T>, t: T)
    ensures Plain(ts + [g]) == Plain(ts) + [g.b]
    ensures Mine(ts + [g], t) == Mine(ts, t) + if g.who == t then [g.b] else []
  {
    assert (ts + [g])[..|ts|] == ts;
  }

  /** All of `bs` for `who`. */
  function Tagged<T>(who: T, bs: seq<byte>): (r: seq<Tag<T>>)
    ensures |r| == |bs|
  {
    if bs == [] then [] else Tagged(who, bs[..|bs| - 1]) + [Tag(who, bs[|bs| - 1])]
  }

  lemma {:induction false} TaggedMine<T>(ts: seq<Tag<T>>, who: T, bs: seq<byte>, t: T)
    ensures Plain(ts + Tagged(who, bs)) == Plain(ts) + bs
    ensures Mine(ts + Tagged(who, bs), t) == Mine(ts, t) + if who == t then bs else []
    decreases |bs|
  {
    if bs == [] {
      assert ts + Tagged(who, bs) == ts;
    } else {
      var c, b := bs[..|bs| - 1], bs[|bs| - 1];
      assert bs == c + [b];
      TaggedMine(ts, who, c, t);
      assert ts + Tagged(who, bs) == (ts + Tagged(who, c)) + [Tag(who, b)];
      TagPush(ts + Tagged(who, c), Tag(who, b), t);
    }
  }

  // ---------- what a thread's reads have ----------

  function Returned(o: Outcome, t: nat): seq<byte> { if o.ReadDone? && o.tid == t then o.bytes else [] }

  /** What `t`'s finished reads returned, in order. */
  function Reads(log: seq<Outcome>, t: nat): seq<byte> {
    if log == [] then [] else Reads(log[..|log| - 1], t) + Returned(log[|log| - 1], t)
  }

  lemma ReadsPush(log: seq<Outcome>, o: Outcome, t: nat)
    ensures Reads(log + [o], t) == Reads(log, t) + Returned(o, t)
  {
    assert (log + [o])[..|log|] == log;
  }

  /** What a waiting read of `t` holds. */
  function Hands(rs: seq<Reader>, t: nat): seq<byte> {
    if rs == [] then [] else if rs[0].tid == t then rs[0].got else Hands(rs[1..], t)
  }

  ghost predicate Apart(rs: seq<Reader>) {
    forall i, j :: 0 <= i < j < |rs| ==> rs[i].tid != rs[j].tid
  }

  ghost predicate Absent(rs: seq<Reader>, t: nat) { forall i :: 0 <= i < |rs| ==> rs[i].tid != t }

  lemma {:induction false} HandsAbsent(rs: seq<Reader>, t: nat)
    requires Absent(rs, t)
    ensures Hands(rs, t) == []
  {
    if rs != [] { HandsAbsent(rs[1..], t); }
  }

  lemma {:induction false} HandsAt(a: seq<Reader>, r: Reader, b: seq<Reader>, t: nat)
    requires Absent(a, r.tid)
    ensures Hands(a + [r] + b, t) == if r.tid == t then r.got else Hands(a + b, t)
  {
    if a == [] {
      assert a + [r] + b == [r] + b && ([r] + b)[1..] == b && a + b == b;
    } else {
      HandsAt(a[1..], r, b, t);
      assert (a + [r] + b)[1..] == a[1..] + [r] + b && (a + b)[1..] == a[1..] + b;
    }
  }

  /** The deliveries `d` so far account for the bytes handed out and for `t`'s reads. */
  ghost predicate Accounts(s: PipeState, d: seq<Tag<nat>>, t: nat) {
    Plain(d) == s.delivered && Mine(d, t) == Reads(s.log, t) + Hands(s.readers, t) && Apart(s.readers)
  }

  // ---------- putting ----------

  /** Who gets the bytes a put hands out. */
  function PutTags(s: PipeState, data: seq<byte>): seq<Tag<nat>>
    decreases |data|
  {
    if data == [] || !CanPut(s) then []
    else (if s.readers != [] then [Tag(s.readers[0].tid, data[0])] else []) + PutTags(PutByte(s, data[0]), data[1..])
  }

  lemma FeedAccounts(s: PipeState, b: byte, d: seq<Tag<nat>>, t: nat)
    requires s.readers != [] && 0 < s.readers[0].want && Accounts(s, d, t)
    ensures Accounts(Feed(s, [b]), d + [Tag(s.readers[0].tid, b)], t)
  {
    var r, rest := s.readers[0], s.readers[1..];
    TagPush(d, Tag(r.tid, b), t);
    assert Absent(rest, r.tid);
    HandsAbsent(rest, r.tid);
    FedHands(s, r, rest, b, t);
    Assoc(Reads(s.log, t), r.got, [b]);
  }

  /** What `t` has after the first reader got `b`. */
  lemma FedHands(s: PipeState, r: Reader, rest: seq<Reader>, b: byte, t: nat)
    requires s.readers == [r] + rest && 0 < r.want && Apart(s.readers) && Hands(rest, r.tid) == []
    ensures var u := Feed(s, [b]);
            && Apart(u.readers)
            && Reads(u.log, t) + Hands(u.readers, t) ==
               if r.tid == t then Reads(s.log, t) + (r.got + [b]) else Reads(s.log, t) + Hands(s.readers, t)
  {
    var r' := r.(got := r.got + [b], want := r.want - 1);
    assert s.readers[1..] == rest && ([r'] + rest)[1..] == rest;
    if r'.want == 0 { ReadsPush(s.log, ReadResult(r'), t); }
  }

  lemma {:induction false} PutAllAccounts(s: PipeState, data: seq<byte>, d: seq<Tag<nat>>, t: nat)
    requires Accounts(s, d, t)
    ensures Accounts(PutAll(s, data).0, d + PutTags(s, data), t)
    decreases |data|
  {
    if data == [] || !CanPut(s) {
      assert d + [] == d;
    } else if s.readers != [] {
      var g, u := Tag(s.readers[0].tid, data[0]), PutByte(s, data[0]);
      FeedAccounts(s, data[0], d, t);
      PutAllAccounts(u, data[1..], d + [g], t);
      assert (d + [g]) + PutTags(u, data[1..]) == d + ([g] + PutTags(u, data[1..]));
    } else {
      var u := PutByte(s, data[0]);
      PutAllAccounts(u, data[1..], d, t);
      assert d + ([] + PutTags(u, data[1..])) == d + PutTags(u, data[1..]);
    }
  }

  lemma SettlePutAccounts(u: PipeState, w: Writer, rest: seq<byte>, noWait: bool, d: seq<Tag<nat>>, t: nat)
    requires Accounts(u, d, t)
    ensures Accounts(SettlePut(u, w, rest, noWait), d, t)
  {
    ReadsPush(u.log, Finished(w), t);
    ReadsPush(u.log, WriteResult(w.(left := rest)), t);
  }

  /** The same for a whole put. */
  function PutCallTags(s: PipeState, data: seq<byte>, minXfer: nat, noWait: bool): seq<Tag<nat>> {
    if noWait && Capacity(s) < minXfer then [] else PutTags(s, data)
  }

  lemma PutAccounts(s: PipeState, who: Who, prio: int, data: seq<byte>, minXfer: nat, noWait: bool, d: seq<Tag<nat>>,
                    t: nat)
    requires Accounts(s, d, t) && (who.Async? ==> !noWait)
    ensures Accounts(PutCall(s, who, prio, data, minXfer, noWait), d + PutCallTags(s, data, minXfer, noWait), t)
  {
    if noWait && Capacity(s) < minXfer {
      ReadsPush(s.log, WriteDone(who.tid, Eio, 0), t);
      assert d + [] == d;
    } else {
      var (u, rest) := PutAll(s, data);
      PutAllAccounts(s, data, d, t);
      SettlePutAccounts(u, Writer(who, prio, |data|, minXfer, data), rest, noWait, d + PutTags(s, data), t);
    }
  }

  // ---------- getting ----------

  /** Getting `bs` leaves the waiting reads and the returned bytes alone. */
  ghost predicate Gets(s: PipeState, u: PipeState, bs: seq<byte>, t: nat) {
    u.delivered == s.delivered + bs && u.readers == s.readers && Reads(u.log, t) == Reads(s.log, t)
  }

  lemma GetByteReads(s: PipeState, t: nat)
    requires CanGet(s)
    ensures Gets(s, GetByte(s).0, [GetByte(s).1], t)
  {
    if HasOffer(s) { ReadsPush(s.log, Finished(s.writers[0]), t); }
  }

  lemma GetsTwice(s: PipeState, u: PipeState, v: PipeState, a: seq<byte>, b: seq<byte>, t: nat)
    requires Gets(s, u, a, t) && Gets(u, v, b, t)
    ensures Gets(s, v, a + b, t)
  {
    Assoc(s.delivered, a, b);
  }

  lemma {:induction false} GetAllReads(s: PipeState, n: nat, t: nat)
    ensures Gets(s, GetAll(s, n).0, GetAll(s, n).1, t)
    decreases n
  {
    if n > 0 && CanGet(s) {
      var u, b := GetByte(s).0, GetByte(s).1;
      GetAllOnce(s, n);
      GetByteReads(s, t);
      GetAllReads(u, n - 1, t);
      GetsTwice(s, u, GetAll(u, n - 1).0, [b], GetAll(u, n - 1).1, t);
    }
  }

  function GetCallTags(s: PipeState, tid: nat, n: nat, minXfer: nat, noWait: bool): seq<Tag<nat>> {
    if noWait && |s.ring| + |Stream(s.writers)| < minXfer then [] else Tagged(tid, GetAll(s, n).1)
  }

  lemma InsertApart(rs: seq<Reader>, r: Reader)
    requires Apart(rs) && Absent(rs, r.tid)
    ensures Apart(Insert(rs, r, ReaderPrio))
  {
    var k, q := Place(rs, r, ReaderPrio, 0), Insert(rs, r, ReaderPrio);
    assert forall i :: 0 <= i < |q| ==> q[i] == if i < k then rs[i] else if i == k then r else rs[i - 1];
  }

  lemma PendAccounts(u: PipeState, r: Reader, d: seq<Tag<nat>>, t: nat)
    requires Accounts(u, d, t) && Absent(u.readers, r.tid)
    ensures var v := u.(delivered := u.delivered + r.got, readers := Insert(u.readers, r, ReaderPrio));
            Accounts(v, d + Tagged(r.tid, r.got), t)
  {
    var rs, k := u.readers, Place(u.readers, r, ReaderPrio, 0);
    TaggedMine(d, r.tid, r.got, t);
    InsertApart(rs, r);
    HandsAt(rs[..k], r, rs[k..], t);
    assert rs == rs[..k] + rs[k..];
    HandsAbsent(rs, r.tid);
  }

  lemma ReturnAccounts(u: PipeState, r: Reader, d: seq<Tag<nat>>, t: nat)
    requires Accounts(u, d, t) && Absent(u.readers, r.tid)
    ensures var v := u.(delivered := u.delivered + r.got, log := u.log + [ReadResult(r)]);
            Accounts(v, d + Tagged(r.tid, r.got), t)
  {
    TaggedMine(d, r.tid, r.got, t);
    HandsAbsent(u.readers, r.tid);
    ReadsPush(u.log, ReadResult(r), t);
  }

  lemma GetAccounts(s: PipeState, tid: nat, prio: int, n: nat, minXfer: nat, noWait: bool, d: seq<Tag<nat>>, t: nat)
    requires Accounts(s, d, t) && Absent(s.readers, tid)
    ensures Accounts(GetCall(s, tid, prio, n, minXfer, noWait), d + GetCallTags(s, tid, n, minXfer, noWait), t)
  {
    if noWait && |s.ring| + |Stream(s.writers)| < minXfer {
      ReadsPush(s.log, ReadDone(tid, Eio, []), t);
      assert d + [] == d;
    } else {
      var (u, bs) := GetAll(s, n);
      var r := Reader(tid, prio, n, minXfer, bs, n - |bs|);
      GetAllReads(s, n, t);
      var u0 := u.(delivered := s.delivered);
      assert Accounts(u0, d, t);
      PendAccounts(u0, r, d, t);
      ReturnAccounts(u0, r, d, t);
    }
  }

  // ---------- runs ----------

  lemma ExpireAccounts(s: PipeState, i: nat, d: seq<Tag<nat>>, t: nat)
    requires Accounts(s, d, t) && i < |s.readers|
    ensures Accounts(ExpireReader(s, i), d, t)
  {
    var rs, r := s.readers, s.readers[i];
    SplitAt(rs, i);
    HandsAt(rs[..i], r, rs[i + 1..], t);
    var q := RemoveAt(rs, i);
    assert forall j :: 0 <= j < |q| ==> q[j] == rs[if j < i then j else j + 1];
    HandsAbsent(q, r.tid);
    ReadsPush(s.log, ReadResult(r), t);
  }

  /** A waiting thread makes no calls. */
  ghost predicate Free(s: PipeState, e: Event) { e.Get? ==> Absent(s.readers, e.tid) }

  function Tags(s: PipeState, e: Event): seq<Tag<nat>> {
    match e
    case Put(tid, prio, data, minXfer, noWait) => PutCallTags(s, data, minXfer, noWait)
    case Get(tid, prio, n, minXfer, noWait) => GetCallTags(s, tid, n, minXfer, noWait)
    case BlockPut(prio, data) =>
      if s.asyncFree == [] then []
      else PutCallTags(s.(asyncFree := s.asyncFree[..|s.asyncFree| - 1]), data, |data|, false)
    case ReaderTimeout(_) => []
    case WriterTimeout(_) => []
  }

  lemma BlockPutAccounts(s: PipeState, prio: int, data: seq<byte>, d: seq<Tag<nat>>, t: nat)
    requires Accounts(s, d, t) && s.asyncFree != []
    ensures Accounts(BlockPutCall(s, prio, data), d + Tags(s, BlockPut(prio, data)), t)
  {
    var k := |s.asyncFree| - 1;
    PutAccounts(s.(asyncFree := s.asyncFree[..k]), Async(s.asyncFree[k]), prio, data, |data|, false, d, t);
  }

  lemma ExpireWriterAccounts(s: PipeState, i: nat, d: seq<Tag<nat>>, t: nat)
    requires Accounts(s, d, t) && i < |s.writers|
    ensures Accounts(ExpireWriter(s, i), d, t)
  {
    ReadsPush(s.log, WriteResult(s.writers[i]), t);
  }

  lemma StepAccounts(s: PipeState, e: Event, d: seq<Tag<nat>>, t: nat)
    requires Enabled(s, e) && Free(s, e) && Accounts(s, d, t)
    ensures Accounts(Step(s, e), d + Tags(s, e), t)
  {
    assert d + [] == d;
    match e
    case Put(tid, prio, data, minXfer, noWait) => PutAccounts(s, Caller(tid), prio, data, minXfer, noWait, d, t);
    case Get(tid, prio, n, minXfer, noWait) => GetAccounts(s, tid, prio, n, minXfer, noWait, d, t);
    case BlockPut(prio, data) =>
      if s.asyncFree != [] { BlockPutAccounts(s, prio, data, d, t); }
    case ReaderTimeout(i) => ExpireAccounts(s, i, d, t);
    case WriterTimeout(i) => ExpireWriterAccounts(s, i, d, t);
  }

  /** The deliveries of the first `n` calls of a run. */
  ghost function Deliveries(states: seq<PipeState>, events: seq<Event>, n: nat): seq<Tag<nat>>
    requires n <= |events| && |states| == |events| + 1
  {
    if n == 0 then [] else Deliveries(states, events, n - 1) + Tags(states[n - 1], events[n - 1])
  }

  ghost predicate Polite(states: seq<PipeState>, events: seq<Event>) {
    IsRun(states, events) && forall i {:trigger events[i]} :: 0 <= i < |events| ==> Free(states[i], events[i])
  }

  lemma Taken(states: seq<PipeState>, events: seq<Event>, i: nat, s: PipeState, e: Event, t: PipeState)
    requires Polite(states, events) && i < |events| && s == states[i] && e == events[i] && t == states[i + 1]
    ensures Enabled(s, e) && t == Step(s, e) && Free(s, e)
  {
    assert Follows(s, e, t);
  }

  /** In every run, for every thread: the bytes delivered to it are, in order, what its
      finished reads returned followed by what its waiting read holds; and all deliveries in
      order are the bytes handed out. */
  lemma {:induction false} ReadsAreInOrder(size: nat, free: seq<nat>, states: seq<PipeState>, events: seq<Event>,
                                           n: nat, t: nat)
    requires Polite(states, events) && states[0] == Init(size, free) && n < |states|
    ensures Accounts(states[n], Deliveries(states, events, n), t)
    decreases n
  {
    if n > 0 {
      var s, e, u := states[n - 1], events[n - 1], states[n];
      Taken(states, events, n - 1, s, e, u);
      ReadsAreInOrder(size, free, states, events, n - 1, t);
      StepAccounts(s, e, Deliveries(states, events, n - 1), t);
    }
  }
}
