/** What pipe calls come back with: return codes, counts, and which call is answered when. */
module PipeCalls {
  import opened Basics
  import opened PriorityList
  import opened PipeSpec
  import opened PipeLaws
  import opened PipeRuns

  // ---------- waiters that a transfer completes ----------

  /** A waiting read that came back with all it asked for. */
  ghost predicate WholeRead(r: Reader, o: Outcome) {
    o.ReadDone? && o.tid == r.tid && o.code == Ok && |o.bytes| == r.requested && r.got <= o.bytes
  }

  /** A waiting read that was given more, and still waits. */
  ghost predicate LaterRead(r: Reader, r': Reader) {
    && r' == r.(got := r'.got, want := r'.want) && r.got <= r'.got
    && 0 < r'.want && |r'.got| + r'.want == r.requested
  }

  /** The first `m` readers came back whole, in queue order, and the others still wait; only
      the first of these may have been given more. */
  ghost predicate ServesReads(rs: seq<Reader>, rs': seq<Reader>, log: seq<Outcome>, log': seq<Outcome>, m: nat) {
    && m <= |rs| && |rs'| == |rs| - m && |log'| == |log| + m && log'[..|log|] == log
    && (forall i :: 0 <= i < m ==> WholeRead(rs[i], log'[|log| + i]))
    && (forall i :: 0 < i < |rs'| ==> rs'[i] == rs[m + i])
    && (rs' != [] ==> LaterRead(rs[m], rs'[0]))
  }

  lemma ServesNobody(s: PipeState)
    requires Live(s)
    ensures ServesReads(s.readers, s.readers, s.log, s.log, 0)
  {
    if s.readers != [] { assert GoodReader(s.readers[0]); }
  }

  /** One reader more came back. */
  lemma OneMoreRead(rs: seq<Reader>, rs': seq<Reader>, log: seq<Outcome>, o: Outcome, log': seq<Outcome>, m: nat)
    requires rs != [] && WholeRead(rs[0], o) && ServesReads(rs[1..], rs', log + [o], log', m)
    ensures ServesReads(rs, rs', log, log', m + 1)
  {
    assert log'[|log|] == log'[..|log| + 1][|log|] == o;
    assert log'[..|log|] == log'[..|log| + 1][..|log|] == log;
    forall i | 0 <= i < m + 1 ensures WholeRead(rs[i], log'[|log| + i]) {
      if i > 0 { assert WholeRead(rs[1..][i - 1], log'[(|log| + 1) + (i - 1)]); }
    }
  }

  /** The first reader had been given more before. */
  lemma EarlierFirst(rs: seq<Reader>, r: Reader, rs': seq<Reader>, log: seq<Outcome>, log': seq<Outcome>, m: nat)
    requires rs != [] && LaterRead(rs[0], r) && ServesReads([r] + rs[1..], rs', log, log', m)
    ensures ServesReads(rs, rs', log, log', m)
  {
    forall i | 0 <= i < m ensures WholeRead(rs[i], log'[|log| + i]) {
      assert WholeRead(([r] + rs[1..])[i], log'[|log| + i]);
    }
  }

  lemma FeedServes(s: PipeState, b: byte, t: PipeState, m: nat) returns (k: nat)
    requires Live(s) && s.readers != []
    requires ServesReads(Feed(s, [b]).readers, t.readers, Feed(s, [b]).log, t.log, m)
    ensures ServesReads(s.readers, t.readers, s.log, t.log, k)
  {
    var r := s.readers[0];
    assert GoodReader(r);
    var r' := r.(got := r.got + [b], want := r.want - 1);
    if r'.want == 0 {
      k := m + 1;
      OneMoreRead(s.readers, t.readers, s.log, ReadResult(r'), t.log, m);
    } else {
      k := m;
      EarlierFirst(s.readers, r', t.readers, s.log, t.log, m);
    }
  }

  lemma {:induction false} PutServes(s: PipeState, data: seq<byte>) returns (m: nat)
    requires Live(s)
    ensures ServesReads(s.readers, PutAll(s, data).0.readers, s.log, PutAll(s, data).0.log, m)
    ensures PutAll(s, data).0.asyncFree == s.asyncFree
    decreases |data|
  {
    if data == [] || !CanPut(s) {
      m := 0;
      ServesNobody(s);
    } else if s.readers == [] {
      m := PutServes(PutByte(s, data[0]), data[1..]);
    } else {
      FeedLive(s, [data[0]]);
      m := PutServes(Feed(s, [data[0]]), data[1..]);
      m := FeedServes(s, data[0], PutAll(s, data).0, m);
    }
  }

  /** A waiting write that came back with all its data taken. */
  ghost predicate WholeWrite(w: Writer, o: Outcome) {
    match w.who
    case Caller(tid) => o == WriteDone(tid, Ok, w.requested)
    case Async(desc) => o == AsyncDone(desc, w.requested)
  }

  ghost predicate LaterWrite(w: Writer, w': Writer) {
    w' == w.(left := w'.left) && w'.left != [] && |w'.left| <= |w.left| && w.left[|w.left| - |w'.left|..] == w'.left
  }

  /** The same for the waiting writers. */
  ghost predicate ServesWrites(ws: seq<Writer>, ws': seq<Writer>, log: seq<Outcome>, log': seq<Outcome>, m: nat) {
    && m <= |ws| && |ws'| == |ws| - m && |log'| == |log| + m && log'[..|log|] == log
    && (forall i :: 0 <= i < m ==> WholeWrite(ws[i], log'[|log| + i]))
    && (forall i :: 0 < i < |ws'| ==> ws'[i] == ws[m + i])
    && (ws' != [] ==> LaterWrite(ws[m], ws'[0]))
  }

  /** One writer more came back. */
  lemma OneMoreWrite(ws: seq<Writer>, ws': seq<Writer>, log: seq<Outcome>, o: Outcome, log': seq<Outcome>, m: nat)
    requires ws != [] && WholeWrite(ws[0], o) && ServesWrites(ws[1..], ws', log + [o], log', m)
    ensures ServesWrites(ws, ws', log, log', m + 1)
  {
    assert log'[|log|] == log'[..|log| + 1][|log|] == o;
    assert log'[..|log|] == log'[..|log| + 1][..|log|] == log;
    forall i | 0 <= i < m + 1 ensures WholeWrite(ws[i], log'[|log| + i]) {
      if i > 0 { assert WholeWrite(ws[1..][i - 1], log'[(|log| + 1) + (i - 1)]); }
    }
  }

  /** The first writer had given up some of its data before. */
  lemma LaterFirst(ws: seq<Writer>, w: Writer, ws': seq<Writer>, log: seq<Outcome>, log': seq<Outcome>, m: nat)
    requires ws != [] && LaterWrite(ws[0], w) && ServesWrites([w] + ws[1..], ws', log, log', m)
    ensures ServesWrites(ws, ws', log, log', m)
  {
    forall i | 0 <= i < m ensures WholeWrite(ws[i], log'[|log| + i]) {
      assert WholeWrite(([w] + ws[1..])[i], log'[|log| + i]);
    }
  }

  lemma TakeServes(s: PipeState, t: PipeState, m: nat) returns (k: nat)
    requires Live(s) && HasOffer(s) && ServesWrites(Take(s, 1).writers, t.writers, Take(s, 1).log, t.log, m)
    ensures ServesWrites(s.writers, t.writers, s.log, t.log, k)
  {
    var w := s.writers[0];
    assert GoodWriter(w);
    if |w.left| == 1 {
      k := m + 1;
      OneMoreWrite(s.writers, t.writers, s.log, Finished(w), t.log, m);
    } else {
      k := m;
      LaterFirst(s.writers, w.(left := w.left[1..]), t.writers, s.log, t.log, m);
    }
  }

  lemma {:induction false} GetServes(s: PipeState, n: nat) returns (m: nat)
    requires Ready(s)
    ensures ServesWrites(s.writers, GetAll(s, n).0.writers, s.log, GetAll(s, n).0.log, m)
    decreases n
  {
    if n == 0 || !CanGet(s) {
      m := 0;
      if s.writers != [] { assert GoodWriter(s.writers[0]); }
    } else {
      GetAllOnce(s, n);
      GetByteShifts(s);
      m := GetServes(GetByte(s).0, n - 1);
      if s.writers != [] {
        GetByteParts(s);
        m := TakeServes(s, GetAll(s, n).0, m);
      }
    }
  }

  // ---------- what each call does ----------

  ghost predicate QueuesWrite(ws: seq<Writer>, ws': seq<Writer>, w: Writer) {
    Joins(ws, ws', w, (x: Writer) => x.prio)
  }

  ghost predicate QueuesRead(rs: seq<Reader>, rs': seq<Reader>, r: Reader) {
    Joins(rs, rs', r, (x: Reader) => x.prio)
  }

  /** How a put with the data of `w` ends after it moved `k` bytes and completed `m` readers:
      with success if that is everything or it may not wait; else it waits with the rest. */
  ghost predicate PutEnds(s: PipeState, t: PipeState, w: Writer, k: nat, m: nat, noWait: bool) {
    && k <= |w.left| == w.requested && t.accepted == s.accepted + w.left[..k] && (noWait ==> w.minXfer <= k)
    && |s.log| + m <= |t.log| && ServesReads(s.readers, t.readers, s.log, t.log[..|s.log| + m], m)
    && (if k == |w.left| || noWait then
          t.writers == s.writers && t.log[|s.log| + m..] == [PutReport(w.who, k)]
        else
          QueuesWrite(s.writers, t.writers, w.(left := w.left[k..])) && t.log[|s.log| + m..] == [])
    && t.asyncFree == if k == |w.left| && w.who.Async? then s.asyncFree + [w.who.desc] else s.asyncFree
  }

  function PutReport(who: Who, k: nat): Outcome {
    match who case Caller(tid) => WriteDone(tid, Ok, k) case Async(desc) => AsyncDone(desc, k)
  }

  lemma PutSettled(s: PipeState, u: PipeState, w: Writer, k: nat, m: nat, noWait: bool)
    requires k <= |w.left| == w.requested && w.minXfer <= w.requested && (noWait ==> w.minXfer <= k && w.who.Caller?)
    requires u.accepted == s.accepted + w.left[..k] && u.writers == s.writers && u.asyncFree == s.asyncFree
    requires ServesReads(s.readers, u.readers, s.log, u.log, m)
    ensures PutEnds(s, SettlePut(u, w, w.left[k..], noWait), w, k, m, noWait)
  {
    var rest, t := w.left[k..], SettlePut(u, w, w.left[k..], noWait);
    InsertJoins(u.writers, w.(left := rest), WriterPrio, (x: Writer) => x.prio);
    assert t.log[..|u.log|] == u.log;
  }

  lemma PutMoved(s: PipeState, w: Writer, noWait: bool) returns (m: nat)
    requires Waiting(s) && w.requested == |w.left| && w.minXfer <= |w.left| && (noWait ==> w.who.Caller?)
    requires noWait ==> w.minXfer <= Capacity(s)
    ensures var (u, rest) := PutAll(s, w.left);
            PutEnds(s, SettlePut(u, w, rest, noWait), w, Min(|w.left|, Capacity(s)), m, noWait)
  {
    PutAmount(s, w.left);
    m := PutServes(s, w.left);
    PutSettled(s, PutAll(s, w.left).0, w, Min(|w.left|, Capacity(s)), m, noWait);
  }

  /** A put that may not wait and cannot move its minimum is refused.  Any other moves what
      it can, min(request, waiting demand + free space), and every reader it completes comes
      back whole. */
  lemma PutOutcome(s: PipeState, tid: nat, prio: int, data: seq<byte>, minXfer: nat, noWait: bool, t: PipeState)
      returns (m: nat)
    requires Waiting(s) && Follows(s, Put(tid, prio, data, minXfer, noWait), t)
    ensures if noWait && Capacity(s) < minXfer then t == s.(log := s.log + [WriteDone(tid, Eio, 0)])
            else PutEnds(s, t, Writer(Caller(tid), prio, |data|, minXfer, data), Min(|data|, Capacity(s)), m, noWait)
  {
    m := 0;
    if !(noWait && Capacity(s) < minXfer) {
      m := PutMoved(s, Writer(Caller(tid), prio, |data|, minXfer, data), noWait);
    }
  }

  /** An asynchronous put does the same on behalf of the descriptor it takes, which is free
      again if all the data could be moved.  Without a descriptor nothing happens. */
  lemma BlockPutOutcome(s: PipeState, prio: int, data: seq<byte>, t: PipeState) returns (m: nat)
    requires Waiting(s) && Follows(s, BlockPut(prio, data), t)
    ensures if s.asyncFree == [] then t == s
            else
              var n := |s.asyncFree| - 1;
              var s', w := s.(asyncFree := s.asyncFree[..n]), Writer(Async(s.asyncFree[n]), prio, |data|, |data|, data);
              PutEnds(s', t, w, Min(|data|, Capacity(s')), m, false)
  {
    m := 0;
    if s.asyncFree != [] {
      var n := |s.asyncFree| - 1;
      var s', w := s.(asyncFree := s.asyncFree[..n]), Writer(Async(s.asyncFree[n]), prio, |data|, |data|, data);
      assert t == SettlePut(PutAll(s', data).0, w, PutAll(s', data).1, false);
      m := PutMoved(s', w, false);
    }
  }

  /** How a get of `r.requested` bytes ends after it read `bs` and completed `m` writers. */
  ghost predicate GetEnds(s: PipeState, t: PipeState, r: Reader, m: nat, noWait: bool) {
    && |r.got| + r.want == r.requested && t.delivered == s.delivered + r.got && (noWait ==> r.minXfer <= |r.got|)
    && |s.log| + m <= |t.log| && ServesWrites(s.writers, t.writers, s.log, t.log[..|s.log| + m], m)
    && (if r.want == 0 || noWait then
          t.readers == s.readers && t.log[|s.log| + m..] == [ReadDone(r.tid, Ok, r.got)]
        else QueuesRead(s.readers, t.readers, r) && t.log[|s.log| + m..] == [])
  }

  lemma GetSettled(s: PipeState, u: PipeState, r: Reader, m: nat, noWait: bool)
    requires |r.got| + r.want == r.requested && r.minXfer <= r.requested && (noWait ==> r.minXfer <= |r.got|)
    requires u.delivered == s.delivered + r.got && u.readers == s.readers
    requires ServesWrites(s.writers, u.writers, s.log, u.log, m)
    ensures GetEnds(s, SettleGet(u, r.tid, r.prio, r.requested, r.minXfer, r.got, noWait), r, m, noWait)
  {
    var t := SettleGet(u, r.tid, r.prio, r.requested, r.minXfer, r.got, noWait);
    InsertJoins(u.readers, r, ReaderPrio, (x: Reader) => x.prio);
    assert t.log[..|u.log|] == u.log;
  }

  /** A get that may not wait and cannot reach its minimum is refused.  Any other reads the
      first bytes of the ring and the waiting writers.  If those are all it asked for, or it
      may not wait, it comes back with success; else it waits for the rest.  Every writer it
      completes comes back with all its data taken. */
  lemma GetOutcome(s: PipeState, tid: nat, prio: int, n: nat, minXfer: nat, noWait: bool, t: PipeState)
      returns (r: Reader, m: nat)
    requires Waiting(s) && Follows(s, Get(tid, prio, n, minXfer, noWait), t)
    ensures var k := Min(n, |Reach(s)|); r == Reader(tid, prio, n, minXfer, Reach(s)[..k], n - k) && minXfer <= n
    ensures GetResult(s, t, r, m, noWait, noWait && |Reach(s)| < minXfer)
  {
    m := 0;
    GetFollows(s, tid, prio, n, minXfer, noWait, t);
    var k := Min(n, |Reach(s)|);
    r := Reader(tid, prio, n, minXfer, Reach(s)[..k], n - k);
    if !(noWait && |Reach(s)| < minXfer) {
      m := GetDone(s, r, noWait, t);
    }
  }

  /** Refused, or done. */
  ghost predicate GetResult(s: PipeState, t: PipeState, r: Reader, m: nat, noWait: bool, refused: bool) {
    if refused then noWait && 0 < r.minXfer && t == s.(log := s.log + [ReadDone(r.tid, Eio, [])])
    else GetEnds(s, t, r, m, noWait)
  }

  lemma GetFollows(s: PipeState, tid: nat, prio: int, n: nat, minXfer: nat, noWait: bool, t: PipeState)
    requires Follows(s, Get(tid, prio, n, minXfer, noWait), t)
    ensures minXfer <= n
    ensures t == if noWait && |Reach(s)| < minXfer then s.(log := s.log + [ReadDone(tid, Eio, [])])
                 else SettleGet(GetAll(s, n).0, tid, prio, n, minXfer, GetAll(s, n).1, noWait)
  {
  }

  lemma GetDone(s: PipeState, r: Reader, noWait: bool, t: PipeState) returns (m: nat)
    requires Ready(s) && r.minXfer <= r.requested && (noWait ==> r.minXfer <= |Reach(s)|)
    requires var k := Min(r.requested, |Reach(s)|); r.got == Reach(s)[..k] && r.want == r.requested - k
    requires var (u, bs) := GetAll(s, r.requested);
             t == SettleGet(u, r.tid, r.prio, r.requested, r.minXfer, bs, noWait)
    ensures GetEnds(s, t, r, m, noWait)
  {
    m := GetServes(s, r.requested);
    GetMoved(s, r.requested);
    GetSettled(s, GetAll(s, r.requested).0, r, m, noWait);
  }

  lemma GetMoved(s: PipeState, n: nat)
    requires Ready(s)
    ensures var k := Min(n, |Reach(s)|);
            var (u, bs) := GetAll(s, n);
            u.readers == s.readers && bs == Reach(s)[..k] && u.delivered == s.delivered + bs
  {
    GetAmount(s, n);
    GetAllReaders(s, n);
  }

  /** A read that times out comes back with the bytes it has: with success if they are at
      least its minimum, else with -EAGAIN. */
  lemma ReaderTimeoutOutcome(s: PipeState, i: nat, t: PipeState)
    requires Live(s) && Follows(s, ReaderTimeout(i), t)
    ensures var r := s.readers[i];
            t == s.(readers := s.readers[..i] + s.readers[i + 1..],
                    log := s.log + [ReadDone(r.tid, if |r.got| < r.minXfer then Eagain else Ok, r.got)])
  {
    assert GoodReader(s.readers[i]);
  }

  /** The same for a synchronous write, which reports how much of its data was taken. */
  lemma WriterTimeoutOutcome(s: PipeState, i: nat, t: PipeState)
    requires Live(s) && Follows(s, WriterTimeout(i), t)
    ensures var w := s.writers[i];
            var k := w.requested - |w.left|;
            t == s.(writers := s.writers[..i] + s.writers[i + 1..],
                    log := s.log + [WriteDone(w.who.tid, if k < w.minXfer then Eagain else Ok, k)])
  {
    assert GoodWriter(s.writers[i]);
  }

  // ---------- every call is answered ----------

  datatype Call = Call(read: bool, prio: int, n: nat, least: nat, noWait: bool)

  /** The calls a thread made, in order. */
  function Calls(events: seq<Event>, t: nat): seq<Call> {
    if events == [] then [] else Calls(events[..|events| - 1], t) + CallBy(events[|events| - 1], t)
  }

  function CallBy(e: Event, t: nat): seq<Call> {
    match e
    case Put(tid, prio, data, minXfer, noWait) => if tid == t then [Call(false, prio, |data|, minXfer, noWait)] else []
    case Get(tid, prio, n, minXfer, noWait) => if tid == t then [Call(true, prio, n, minXfer, noWait)] else []
    case BlockPut(_, _) => []
    case ReaderTimeout(_) => []
    case WriterTimeout(_) => []
  }

  /** What the thread's calls came back with, in order. */
  function Answers(log: seq<Outcome>, t: nat): seq<Outcome> {
    if log == [] then [] else Answers(log[..|log| - 1], t) + AnswerTo(log[|log| - 1], t)
  }

  function AnswerTo(o: Outcome, t: nat): seq<Outcome> { if !o.AsyncDone? && o.tid == t then [o] else [] }

  /** The calls it still waits in. */
  function Pending(rs: seq<Reader>, ws: seq<Writer>, t: nat): seq<Call> { Reading(rs, t) + Writing(ws, t) }

  function Reading(rs: seq<Reader>, t: nat): seq<Call> {
    if rs == [] then [] else ReadingIn(rs[0], t) + Reading(rs[1..], t)
  }

  function ReadingIn(r: Reader, t: nat): seq<Call> {
    if r.tid == t then [Call(true, r.prio, r.requested, r.minXfer, false)] else []
  }

  function Writing(ws: seq<Writer>, t: nat): seq<Call> {
    if ws == [] then [] else WritingIn(ws[0], t) + Writing(ws[1..], t)
  }

  function WritingIn(w: Writer, t: nat): seq<Call> {
    if w.who == Caller(t) then [Call(false, w.prio, w.requested, w.minXfer, false)] else []
  }

  /** The answer is to a call of its kind and of no more than it asked for.  It is a success
      exactly if at least the call's minimum was moved; only a call that may not wait is
      refused, with nothing moved, and only one that may wait times out. */
  ghost predicate Answered(c: Call, o: Outcome) {
    match o
    case ReadDone(_, code, bytes) => c.read && CodeFits(c, code, |bytes|)
    case WriteDone(_, code, count) => !c.read && CodeFits(c, code, count)
    case AsyncDone(_, _) => false
  }

  ghost predicate CodeFits(c: Call, code: Code, count: int) {
    && 0 <= count <= c.n && (code == Ok <==> c.least <= count)
    && (code == Eio ==> c.noWait && count == 0) && (code == Eagain ==> !c.noWait)
  }

  /** The thread's calls so far, in order, have been answered, except for at most one, which
      waits. */
  ghost predicate Kept(log: seq<Outcome>, rs: seq<Reader>, ws: seq<Writer>, calls: seq<Call>, t: nat) {
    var a, p := Answers(log, t), Pending(rs, ws, t);
    && |p| <= 1 && |calls| == |a| + |p| && calls[|a|..] == p
    && forall i :: 0 <= i < |a| ==> Answered(calls[i], a[i])
  }

  lemma AnswersPush(log: seq<Outcome>, o: Outcome, t: nat)
    ensures Answers(log + [o], t) == Answers(log, t) + AnswerTo(o, t)
  {
    assert (log + [o])[..|log|] == log;
  }

  lemma {:induction false} ReadingConcat(a: seq<Reader>, b: seq<Reader>, t: nat)
    ensures Reading(a + b, t) == Reading(a, t) + Reading(b, t)
  {
    if a == [] {
      assert a + b == b;
    } else {
      assert (a + b)[1..] == a[1..] + b;
      ReadingConcat(a[1..], b, t);
      Assoc(ReadingIn(a[0], t), Reading(a[1..], t), Reading(b, t));
    }
  }

  lemma {:induction false} WritingConcat(a: seq<Writer>, b: seq<Writer>, t: nat)
    ensures Writing(a + b, t) == Writing(a, t) + Writing(b, t)
  {
    if a == [] {
      assert a + b == b;
    } else {
      assert (a + b)[1..] == a[1..] + b;
      WritingConcat(a[1..], b, t);
      Assoc(WritingIn(a[0], t), Writing(a[1..], t), Writing(b, t));
    }
  }

  /** One entry of a list: it adds its own calls to those of the rest. */
  lemma ReadingAround(a: seq<Reader>, r: Reader, b: seq<Reader>, t: nat)
    ensures r.tid != t ==> Reading(a + [r] + b, t) == Reading(a + b, t)
    ensures r.tid == t ==> |Reading(a + [r] + b, t)| == |Reading(a + b, t)| + 1
    ensures r.tid == t && Reading(a + b, t) == [] ==> Reading(a + [r] + b, t) == ReadingIn(r, t)
  {
    ReadingConcat(a, b, t);
    ReadingConcat(a + [r], b, t);
    ReadingConcat(a, [r], t);
    assert Reading([r], t) == ReadingIn(r, t);
    if r.tid != t { assert Reading(a, t) + [] == Reading(a, t); }
  }

  lemma WritingAround(a: seq<Writer>, w: Writer, b: seq<Writer>, t: nat)
    ensures w.who != Caller(t) ==> Writing(a + [w] + b, t) == Writing(a + b, t)
    ensures w.who == Caller(t) ==> |Writing(a + [w] + b, t)| == |Writing(a + b, t)| + 1
    ensures w.who == Caller(t) && Writing(a + b, t) == [] ==> Writing(a + [w] + b, t) == WritingIn(w, t)
  {
    WritingConcat(a, b, t);
    WritingConcat(a + [w], b, t);
    WritingConcat(a, [w], t);
    assert Writing([w], t) == WritingIn(w, t);
    if w.who != Caller(t) { assert Writing(a, t) + [] == Writing(a, t); }
  }

  lemma LastAnswered(calls: seq<Call>, a: seq<Outcome>, o: Outcome)
    requires |calls| == |a| + 1 && Answered(calls[|a|], o)
    requires forall i :: 0 <= i < |a| ==> Answered(calls[i], a[i])
    ensures var b := a + [o]; calls[|b|..] == [] && forall i :: 0 <= i < |b| ==> Answered(calls[i], b[i])
  {
  }

  /** A call that waited comes back. */
  lemma WaiterAnswered(log: seq<Outcome>, rs: seq<Reader>, ws: seq<Writer>, rs': seq<Reader>, ws': seq<Writer>,
                       o: Outcome, calls: seq<Call>, t: nat)
    requires Kept(log, rs, ws, calls, t)
    requires Pending(rs', ws', t) == if AnswerTo(o, t) == [] then Pending(rs, ws, t) else []
    requires AnswerTo(o, t) != [] ==> Pending(rs, ws, t) != [] && Answered(Pending(rs, ws, t)[0], o)
    ensures Kept(log + [o], rs', ws', calls, t)
  {
    AnswersPush(log, o, t);
    if AnswerTo(o, t) == [] {
      assert Answers(log, t) + [] == Answers(log, t);
    } else {
      assert calls[|Answers(log, t)|] == calls[|Answers(log, t)|..][0] == Pending(rs, ws, t)[0];
      LastAnswered(calls, Answers(log, t), o);
    }
  }

  lemma ReaderAnswered(log: seq<Outcome>, rs: seq<Reader>, ws: seq<Writer>, i: nat, o: Outcome, calls: seq<Call>,
                       t: nat)
    requires Kept(log, rs, ws, calls, t) && i < |rs| && o.ReadDone? && o.tid == rs[i].tid
    requires rs[i].tid == t ==> Answered(ReadingIn(rs[i], t)[0], o)
    ensures Kept(log + [o], RemoveAt(rs, i), ws, calls, t)
  {
    SplitAt(rs, i);
    ReadingAround(rs[..i], rs[i], rs[i + 1..], t);
    WaiterAnswered(log, rs, ws, RemoveAt(rs, i), ws, o, calls, t);
  }

  lemma WriterAnswered(log: seq<Outcome>, rs: seq<Reader>, ws: seq<Writer>, i: nat, o: Outcome, calls: seq<Call>,
                       t: nat)
    requires Kept(log, rs, ws, calls, t) && i < |ws|
    requires match ws[i].who case Caller(tid) => o.WriteDone? && o.tid == tid case Async(_) => o.AsyncDone?
    requires ws[i].who == Caller(t) ==> Answered(WritingIn(ws[i], t)[0], o)
    ensures Kept(log + [o], rs, RemoveAt(ws, i), calls, t)
  {
    SplitAt(ws, i);
    WritingAround(ws[..i], ws[i], ws[i + 1..], t);
    WaiterAnswered(log, rs, ws, rs, RemoveAt(ws, i), o, calls, t);
  }

  /** Being given more changes no call. */
  lemma SameReading(rs: seq<Reader>, rs': seq<Reader>, log: seq<Outcome>, log': seq<Outcome>, t: nat)
    requires ServesReads(rs, rs', log, log', 0)
    ensures log' == log && Reading(rs', t) == Reading(rs, t)
  {
    if rs != [] { assert rs'[1..] == rs[1..]; }
  }

  lemma FirstReadAnswered(rs: seq<Reader>, ws: seq<Writer>, log: seq<Outcome>, o: Outcome, calls: seq<Call>, t: nat)
    requires Kept(log, rs, ws, calls, t) && rs != [] && WholeRead(rs[0], o) && GoodReader(rs[0])
    ensures Kept(log + [o], rs[1..], ws, calls, t)
  {
    assert RemoveAt(rs, 0) == rs[1..];
    ReaderAnswered(log, rs, ws, 0, o, calls, t);
  }

  lemma {:induction false} ReadsAnswered(rs: seq<Reader>, rs': seq<Reader>, ws: seq<Writer>, log: seq<Outcome>,
                                         log': seq<Outcome>, m: nat, calls: seq<Call>, t: nat)
    requires Kept(log, rs, ws, calls, t) && ServesReads(rs, rs', log, log', m)
    requires forall i :: 0 <= i < |rs| ==> GoodReader(rs[i])
    ensures Kept(log', rs', ws, calls, t)
    decreases m
  {
    if m == 0 {
      SameReading(rs, rs', log, log', t);
    } else {
      var o := log'[|log|];
      FirstRead(rs, rs', log, log', m);
      FirstReadAnswered(rs, ws, log, o, calls, t);
      ReadsAnswered(rs[1..], rs', ws, log + [o], log', m - 1, calls, t);
    }
  }

  lemma FirstRead(rs: seq<Reader>, rs': seq<Reader>, log: seq<Outcome>, log': seq<Outcome>, m: nat)
    requires ServesReads(rs, rs', log, log', m) && m > 0
    ensures ServesReads(rs[1..], rs', log + [log'[|log|]], log', m - 1) && WholeRead(rs[0], log'[|log|])
  {
    assert WholeRead(rs[0], log'[|log| + 0]);
    assert log'[..|log| + 1] == log + [log'[|log|]];
    forall i | 0 <= i < m - 1 ensures WholeRead(rs[1..][i], log'[|log| + 1 + i]) {
      assert WholeRead(rs[i + 1], log'[|log| + (i + 1)]);
    }
  }

  lemma SameWriting(ws: seq<Writer>, ws': seq<Writer>, log: seq<Outcome>, log': seq<Outcome>, t: nat)
    requires ServesWrites(ws, ws', log, log', 0)
    ensures log' == log && Writing(ws', t) == Writing(ws, t)
  {
    if ws != [] { assert ws'[1..] == ws[1..]; }
  }

  lemma FirstWriteAnswered(rs: seq<Reader>, ws: seq<Writer>, log: seq<Outcome>, o: Outcome, calls: seq<Call>, t: nat)
    requires Kept(log, rs, ws, calls, t) && ws != [] && WholeWrite(ws[0], o) && GoodWriter(ws[0])
    ensures Kept(log + [o], rs, ws[1..], calls, t)
  {
    assert RemoveAt(ws, 0) == ws[1..];
    WriterAnswered(log, rs, ws, 0, o, calls, t);
  }

  lemma {:induction false} WritesAnswered(rs: seq<Reader>, ws: seq<Writer>, ws': seq<Writer>, log: seq<Outcome>,
                                          log': seq<Outcome>, m: nat, calls: seq<Call>, t: nat)
    requires Kept(log, rs, ws, calls, t) && ServesWrites(ws, ws', log, log', m)
    requires forall i :: 0 <= i < |ws| ==> GoodWriter(ws[i])
    ensures Kept(log', rs, ws', calls, t)
    decreases m
  {
    if m == 0 {
      SameWriting(ws, ws', log, log', t);
    } else {
      var o := log'[|log|];
      FirstWrite(ws, ws', log, log', m);
      FirstWriteAnswered(rs, ws, log, o, calls, t);
      WritesAnswered(rs, ws[1..], ws', log + [o], log', m - 1, calls, t);
    }
  }

  lemma FirstWrite(ws: seq<Writer>, ws': seq<Writer>, log: seq<Outcome>, log': seq<Outcome>, m: nat)
    requires ServesWrites(ws, ws', log, log', m) && m > 0
    ensures ServesWrites(ws[1..], ws', log + [log'[|log|]], log', m - 1) && WholeWrite(ws[0], log'[|log|])
  {
    assert WholeWrite(ws[0], log'[|log| + 0]);
    assert log'[..|log| + 1] == log + [log'[|log|]];
    forall i | 0 <= i < m - 1 ensures WholeWrite(ws[1..][i], log'[|log| + 1 + i]) {
      assert WholeWrite(ws[i + 1], log'[|log| + (i + 1)]);
    }
  }

  /** A call comes back at once. */
  lemma CallerAnswered(log: seq<Outcome>, rs: seq<Reader>, ws: seq<Writer>, c: Call, o: Outcome, calls: seq<Call>,
                       t: nat)
    requires Kept(log, rs, ws, calls, t) && (AnswerTo(o, t) != [] ==> Answered(c, o) && Pending(rs, ws, t) == [])
    ensures Kept(log + [o], rs, ws, calls + if AnswerTo(o, t) == [] then [] else [c], t)
  {
    AnswersPush(log, o, t);
  }

  lemma WritingJoins(ws: seq<Writer>, ws': seq<Writer>, w: Writer, t: nat)
    requires QueuesWrite(ws, ws', w)
    ensures w.who != Caller(t) ==> Writing(ws', t) == Writing(ws, t)
    ensures w.who == Caller(t) && Writing(ws, t) == [] ==> Writing(ws', t) == WritingIn(w, t)
  {
    var k :| JoinsAt(ws, ws', w, (x: Writer) => x.prio, k);
    WritingAround(ws[..k], w, ws[k..], t);
    assert ws == ws[..k] + ws[k..];
  }

  lemma ReadingJoins(rs: seq<Reader>, rs': seq<Reader>, r: Reader, t: nat)
    requires QueuesRead(rs, rs', r)
    ensures r.tid != t ==> Reading(rs', t) == Reading(rs, t)
    ensures r.tid == t && Reading(rs, t) == [] ==> Reading(rs', t) == ReadingIn(r, t)
  {
    var k :| JoinsAt(rs, rs', r, (x: Reader) => x.prio, k);
    ReadingAround(rs[..k], r, rs[k..], t);
    assert rs == rs[..k] + rs[k..];
  }

  /** A call waits. */
  lemma CallerWaits(log: seq<Outcome>, rs: seq<Reader>, ws: seq<Writer>, rs': seq<Reader>, ws': seq<Writer>,
                    cs: seq<Call>, calls: seq<Call>, t: nat)
    requires Kept(log, rs, ws, calls, t) && |cs| <= 1 && (cs != [] ==> Pending(rs, ws, t) == [])
    requires Pending(rs', ws', t) == if cs == [] then Pending(rs, ws, t) else cs
    ensures Kept(log, rs', ws', calls + cs, t)
  {
    if cs == [] { assert calls + cs == calls; }
  }

  lemma {:induction false} StillFree(rs: seq<Reader>, rs': seq<Reader>, log: seq<Outcome>, log': seq<Outcome>, m: nat,
                                     t: nat)
    requires ServesReads(rs, rs', log, log', m) && Reading(rs, t) == []
    ensures Reading(rs', t) == []
    decreases m
  {
    if m == 0 {
      SameReading(rs, rs', log, log', t);
    } else {
      FirstRead(rs, rs', log, log', m);
      StillFree(rs[1..], rs', log + [log'[|log|]], log', m - 1, t);
    }
  }

  lemma {:induction false} StillIdle(ws: seq<Writer>, ws': seq<Writer>, log: seq<Outcome>, log': seq<Outcome>, m: nat,
                                     t: nat)
    requires ServesWrites(ws, ws', log, log', m) && Writing(ws, t) == []
    ensures Writing(ws', t) == []
    decreases m
  {
    if m == 0 {
      SameWriting(ws, ws', log, log', t);
    } else {
      FirstWrite(ws, ws', log, log', m);
      StillIdle(ws[1..], ws', log + [log'[|log|]], log', m - 1, t);
    }
  }

  function PutOf(w: Writer, noWait: bool, t: nat): seq<Call> {
    if w.who == Caller(t) then [Call(false, w.prio, w.requested, w.minXfer, noWait)] else []
  }

  function GetOf(r: Reader, noWait: bool, t: nat): seq<Call> {
    if r.tid == t then [Call(true, r.prio, r.requested, r.minXfer, noWait)] else []
  }

  /** A put that comes back after `log`. */
  lemma PutReturns(log: seq<Outcome>, rs: seq<Reader>, ws: seq<Writer>, w: Writer, k: nat, noWait: bool,
                   calls: seq<Call>, t: nat)
    requires Kept(log, rs, ws, calls, t) && w.minXfer <= k <= w.requested
    requires w.who == Caller(t) ==> Pending(rs, ws, t) == []
    ensures Kept(log + [PutReport(w.who, k)], rs, ws, calls + PutOf(w, noWait, t), t)
  {
    CallerAnswered(log, rs, ws, Call(false, w.prio, w.requested, w.minXfer, noWait), PutReport(w.who, k), calls, t);
  }

  lemma PutWaits(log: seq<Outcome>, rs: seq<Reader>, ws: seq<Writer>, ws': seq<Writer>, w: Writer, rest: seq<byte>,
                 calls: seq<Call>, t: nat)
    requires Kept(log, rs, ws, calls, t) && QueuesWrite(ws, ws', w.(left := rest))
    requires w.who == Caller(t) ==> Pending(rs, ws, t) == []
    ensures Kept(log, rs, ws', calls + PutOf(w, false, t), t)
  {
    WritingJoins(ws, ws', w.(left := rest), t);
    CallerWaits(log, rs, ws, rs, ws', PutOf(w, false, t), calls, t);
  }

  /** A put that was not refused. */
  lemma PutAnswered(s: PipeState, u: PipeState, w: Writer, k: nat, m: nat, noWait: bool, calls: seq<Call>, t: nat)
    requires Live(s) && Kept(s.log, s.readers, s.writers, calls, t) && PutEnds(s, u, w, k, m, noWait)
    requires w.minXfer <= |w.left| && (w.who == Caller(t) ==> Pending(s.readers, s.writers, t) == [])
    ensures Kept(u.log, u.readers, u.writers, calls + PutOf(w, noWait, t), t)
  {
    var log := u.log[..|s.log| + m];
    ReadsAnswered(s.readers, u.readers, s.writers, s.log, log, m, calls, t);
    if w.who == Caller(t) { StillFree(s.readers, u.readers, s.log, log, m, t); }
    if k == |w.left| || noWait {
      assert u.log == log + [PutReport(w.who, k)];
      PutReturns(log, u.readers, s.writers, w, k, noWait, calls, t);
    } else {
      assert u.log == log;
      PutWaits(log, u.readers, s.writers, u.writers, w, w.left[k..], calls, t);
    }
  }

  lemma GetReturns(log: seq<Outcome>, rs: seq<Reader>, ws: seq<Writer>, r: Reader, noWait: bool, calls: seq<Call>,
                   t: nat)
    requires Kept(log, rs, ws, calls, t) && r.minXfer <= |r.got| <= r.requested
    requires r.tid == t ==> Pending(rs, ws, t) == []
    ensures Kept(log + [ReadDone(r.tid, Ok, r.got)], rs, ws, calls + GetOf(r, noWait, t), t)
  {
    var c := Call(true, r.prio, r.requested, r.minXfer, noWait);
    CallerAnswered(log, rs, ws, c, ReadDone(r.tid, Ok, r.got), calls, t);
  }

  lemma GetWaits(log: seq<Outcome>, rs: seq<Reader>, ws: seq<Writer>, rs': seq<Reader>, r: Reader, calls: seq<Call>,
                 t: nat)
    requires Kept(log, rs, ws, calls, t) && QueuesRead(rs, rs', r)
    requires r.tid == t ==> Pending(rs, ws, t) == []
    ensures Kept(log, rs', ws, calls + GetOf(r, false, t), t)
  {
    ReadingJoins(rs, rs', r, t);
    CallerWaits(log, rs, ws, rs', ws, GetOf(r, false, t), calls, t);
  }

  lemma GetAnswered(s: PipeState, u: PipeState, r: Reader, m: nat, noWait: bool, calls: seq<Call>, t: nat)
    requires Live(s) && Kept(s.log, s.readers, s.writers, calls, t) && GetEnds(s, u, r, m, noWait)
    requires r.minXfer <= r.requested && (r.tid == t ==> Pending(s.readers, s.writers, t) == [])
    ensures Kept(u.log, u.readers, u.writers, calls + GetOf(r, noWait, t), t)
  {
    var log := u.log[..|s.log| + m];
    WritesAnswered(s.readers, s.writers, u.writers, s.log, log, m, calls, t);
    if r.tid == t { StillIdle(s.writers, u.writers, s.log, log, m, t); }
    if r.want == 0 || noWait {
      assert u.log == log + [ReadDone(r.tid, Ok, r.got)];
      GetReturns(log, s.readers, u.writers, r, noWait, calls, t);
    } else {
      assert u.log == log;
      GetWaits(log, s.readers, u.writers, u.readers, r, calls, t);
    }
  }

  /** A waiting thread makes no calls. */
  ghost predicate Free(s: PipeState, e: Event) {
    e.Put? || e.Get? ==> Pending(s.readers, s.writers, e.tid) == []
  }

  lemma PutEventAnswered(s: PipeState, tid: nat, prio: int, data: seq<byte>, minXfer: nat, noWait: bool, u: PipeState,
                         calls: seq<Call>, t: nat)
    requires Waiting(s) && Follows(s, Put(tid, prio, data, minXfer, noWait), u)
    requires Kept(s.log, s.readers, s.writers, calls, t) && (tid == t ==> Pending(s.readers, s.writers, t) == [])
    ensures Kept(u.log, u.readers, u.writers, calls + CallBy(Put(tid, prio, data, minXfer, noWait), t), t)
  {
    var m := PutOutcome(s, tid, prio, data, minXfer, noWait, u);
    if noWait && Capacity(s) < minXfer {
      var c := Call(false, prio, |data|, minXfer, noWait);
      CallerAnswered(s.log, s.readers, s.writers, c, WriteDone(tid, Eio, 0), calls, t);
    } else {
      var w := Writer(Caller(tid), prio, |data|, minXfer, data);
      PutAnswered(s, u, w, Min(|data|, Capacity(s)), m, noWait, calls, t);
    }
  }

  lemma GetRefusalAnswered(s: PipeState, tid: nat, c: Call, calls: seq<Call>, t: nat)
    requires Kept(s.log, s.readers, s.writers, calls, t) && (tid == t ==> Pending(s.readers, s.writers, t) == [])
    requires c.read && c.noWait && 0 < c.least
    ensures Kept(s.log + [ReadDone(tid, Eio, [])], s.readers, s.writers, calls + if tid == t then [c] else [], t)
  {
    CallerAnswered(s.log, s.readers, s.writers, c, ReadDone(tid, Eio, []), calls, t);
  }

  lemma GetEitherAnswered(s: PipeState, u: PipeState, r: Reader, m: nat, noWait: bool, refused: bool, calls: seq<Call>,
                          t: nat)
    requires Live(s) && r.minXfer <= r.requested && GetResult(s, u, r, m, noWait, refused)
    requires Kept(s.log, s.readers, s.writers, calls, t) && (r.tid == t ==> Pending(s.readers, s.writers, t) == [])
    ensures Kept(u.log, u.readers, u.writers, calls + GetOf(r, noWait, t), t)
  {
    if refused {
      GetRefusalAnswered(s, r.tid, Call(true, r.prio, r.requested, r.minXfer, noWait), calls, t);
    } else {
      GetAnswered(s, u, r, m, noWait, calls, t);
    }
  }

  lemma GetEventAnswered(s: PipeState, tid: nat, prio: int, n: nat, minXfer: nat, noWait: bool, u: PipeState,
                         calls: seq<Call>, t: nat)
    requires Waiting(s) && Follows(s, Get(tid, prio, n, minXfer, noWait), u)
    requires Kept(s.log, s.readers, s.writers, calls, t) && (tid == t ==> Pending(s.readers, s.writers, t) == [])
    ensures Kept(u.log, u.readers, u.writers,
                 calls + if tid == t then [Call(true, prio, n, minXfer, noWait)] else [], t)
  {
    var r, m := GetOutcome(s, tid, prio, n, minXfer, noWait, u);
    GetEitherAnswered(s, u, r, m, noWait, noWait && |Reach(s)| < minXfer, calls, t);
  }

  lemma ReaderTimeoutAnswered(s: PipeState, i: nat, u: PipeState, calls: seq<Call>, t: nat)
    requires Live(s) && Follows(s, ReaderTimeout(i), u) && Kept(s.log, s.readers, s.writers, calls, t)
    ensures Kept(u.log, u.readers, u.writers, calls, t)
  {
    var r := s.readers[i];
    ReaderTimeoutOutcome(s, i, u);
    assert GoodReader(r);
    var o := ReadDone(r.tid, if |r.got| < r.minXfer then Eagain else Ok, r.got);
    ReaderAnswered(s.log, s.readers, s.writers, i, o, calls, t);
  }

  lemma WriterTimeoutAnswered(s: PipeState, i: nat, u: PipeState, calls: seq<Call>, t: nat)
    requires Live(s) && Follows(s, WriterTimeout(i), u) && Kept(s.log, s.readers, s.writers, calls, t)
    ensures Kept(u.log, u.readers, u.writers, calls, t)
  {
    var w := s.writers[i];
    var k := w.requested - |w.left|;
    var o := WriteDone(w.who.tid, if k < w.minXfer then Eagain else Ok, k);
    assert GoodWriter(w);
    WriterTimeoutOutcome(s, i, u);
    assert u.writers == RemoveAt(s.writers, i) && u.log == s.log + [o] && u.readers == s.readers;
    assert w.who == Caller(t) ==> Answered(WritingIn(w, t)[0], o);
    WriterAnswered(s.log, s.readers, s.writers, i, o, calls, t);
  }

  lemma FollowsAnswered(s: PipeState, e: Event, u: PipeState, calls: seq<Call>, t: nat)
    requires Waiting(s) && Follows(s, e, u) && Free(s, e) && Kept(s.log, s.readers, s.writers, calls, t)
    ensures Kept(u.log, u.readers, u.writers, calls + CallBy(e, t), t)
  {
    assert calls + [] == calls;
    match e
    case Put(tid, prio, data, minXfer, noWait) =>
      PutEventAnswered(s, tid, prio, data, minXfer, noWait, u, calls, t);
    case Get(tid, prio, n, minXfer, noWait) => GetEventAnswered(s, tid, prio, n, minXfer, noWait, u, calls, t);
    case BlockPut(prio, data) => BlockPutAnswered(s, prio, data, u, calls, t);
    case ReaderTimeout(i) => ReaderTimeoutAnswered(s, i, u, calls, t);
    case WriterTimeout(i) => WriterTimeoutAnswered(s, i, u, calls, t);
  }

  lemma BlockPutAnswered(s: PipeState, prio: int, data: seq<byte>, u: PipeState, calls: seq<Call>, t: nat)
    requires Waiting(s) && Follows(s, BlockPut(prio, data), u) && Kept(s.log, s.readers, s.writers, calls, t)
    ensures Kept(u.log, u.readers, u.writers, calls, t)
  {
    var m := BlockPutOutcome(s, prio, data, u);
    if s.asyncFree != [] {
      var n := |s.asyncFree| - 1;
      var s', w := s.(asyncFree := s.asyncFree[..n]), Writer(Async(s.asyncFree[n]), prio, |data|, |data|, data);
      PutAnswered(s', u, w, Min(|data|, Capacity(s')), m, false, calls, t);
      assert calls + [] == calls;
    }
  }

  lemma CallsPush(events: seq<Event>, n: nat, t: nat)
    requires 0 < n <= |events|
    ensures Calls(events[..n], t) == Calls(events[..n - 1], t) + CallBy(events[n - 1], t)
  {
    assert events[..n][..n - 1] == events[..n - 1];
  }

  /** Over every run in which a waiting thread makes no calls, every thread's calls are
      answered in order, except for at most one, in which the thread waits.  Each answer is
      a success exactly if at least the minimum its call asked for was moved; only a call
      that may not wait is refused, and only one that may wait reports -EAGAIN. */
  lemma {:induction false} EveryCallIsAnswered(size: nat, free: seq<nat>, states: seq<PipeState>, events: seq<Event>,
                                               n: nat, t: nat)
    requires IsRun(states, events) && states[0] == Init(size, free) && n < |states|
    requires forall i {:trigger events[i]} :: 0 <= i < |events| ==> Free(states[i], events[i])
    ensures Kept(states[n].log, states[n].readers, states[n].writers, Calls(events[..n], t), t)
    decreases n
  {
    if n > 0 {
      var s, e, u := states[n - 1], events[n - 1], states[n];
      Taken(states, events, n - 1, s, e, u);
      assert Free(s, e);
      CallsPush(events, n, t);
      EveryRunIsSafe(size, free, states, events, n - 1);
      EveryCallIsAnswered(size, free, states, events, n - 1, t);
      FollowsAnswered(s, e, u, Calls(events[..n - 1], t), t);
    }
  }
}
