/** Which bytes of which write a pipe has taken.

    A run's accepted bytes are tagged with the writer they came from, a thread or an
    asynchronous descriptor.  In every run the bytes tagged with a writer are, in order, the
    prefixes of its data that its finished writes report and the prefix taken from its
    waiting write, whose rest is what it still offers. */
module PipeWrites {
  import opened Basics
  import opened PriorityList
  import opened PipeSpec
  import opened PipeLaws
  import opened PipeRuns
  import opened PipeReads

  /** One writer's books: the data of its latest write, and the parts of its finished writes
      that they reported as written. */
  datatype Ledger = Ledger(offer: seq<byte>, past: seq<byte>)

  function Prefix(q: seq<byte>, c: int): seq<byte> { if 0 <= c <= |q| then q[..c] else [] }

  /** A finished write reports a count, and that prefix of its data becomes past. */
  function Booked(l: Ledger, count: int): Ledger { l.(past := l.past + Prefix(l.offer, count)) }

  predicate Ends(o: Outcome, x: Who) {
    (o.WriteDone? && x == Caller(o.tid)) || (o.AsyncDone? && x == Async(o.desc))
  }

  function Close(l: Ledger, o: Outcome, x: Who): Ledger { if Ends(o, x) then Booked(l, o.count) else l }

  function CloseAll(l: Ledger, log: seq<Outcome>, x: Who): Ledger {
    if log == [] then l else Close(CloseAll(l, log[..|log| - 1], x), log[|log| - 1], x)
  }

  /** `log'` extends `log`, and its new outcomes take `x`'s books from `l` to `l'`. */
  ghost predicate Closes(log: seq<Outcome>, log': seq<Outcome>, l: Ledger, l': Ledger, x: Who) {
    |log| <= |log'| && log'[..|log|] == log && CloseAll(l, log'[|log|..], x) == l'
  }

  lemma ClosesSame(log: seq<Outcome>, l: Ledger, x: Who)
    ensures Closes(log, log, l, l, x)
  {
    assert log[|log|..] == [];
  }

  lemma ClosesPush(log: seq<Outcome>, log': seq<Outcome>, l: Ledger, l': Ledger, o: Outcome, x: Who)
    requires Closes(log, log', l, l', x)
    ensures Closes(log, log' + [o], l, Close(l', o, x), x)
  {
    var e := log'[|log|..];
    assert (log' + [o])[|log|..] == e + [o];
    assert (e + [o])[..|e|] == e;
    assert (log' + [o])[..|log|] == log'[..|log|];
  }

  lemma {:induction false} CloseMore(l: Ledger, e: seq<Outcome>, f: seq<Outcome>, x: Who)
    ensures CloseAll(l, e + f, x) == CloseAll(CloseAll(l, e, x), f, x)
    decreases |f|
  {
    if f == [] {
      assert e + f == e;
    } else {
      var g := f[..|f| - 1];
      assert (e + f)[..|e + f| - 1] == e + g;
      CloseMore(l, e, g, x);
    }
  }

  lemma ClosesTwice(a: seq<Outcome>, b: seq<Outcome>, c: seq<Outcome>, l: Ledger, m: Ledger, n: Ledger, x: Who)
    requires Closes(a, b, l, m, x) && Closes(b, c, m, n, x)
    ensures Closes(a, c, l, n, x)
  {
    var e, f := b[|a|..], c[|b|..];
    assert c == b + f && c[|a|..] == e + f && c[..|a|] == b[..|a|];
    CloseMore(l, e, f, x);
  }

  // ---------- waiting writers ----------

  ghost predicate Apart(ws: seq<Writer>) {
    forall i, j :: 0 <= i < j < |ws| ==> ws[i].who != ws[j].who
  }

  ghost predicate Absent(ws: seq<Writer>, x: Who) { forall i :: 0 <= i < |ws| ==> ws[i].who != x }

  /** What a waiting write still offers is the end of its data. */
  ghost predicate Rest(w: Writer, q: seq<byte>) {
    w.requested == |q| && |w.left| <= |q| && w.left == q[|q| - |w.left|..]
  }

  ghost predicate Rests(ws: seq<Writer>, q: seq<byte>, x: Who) {
    forall i :: 0 <= i < |ws| && ws[i].who == x ==> Rest(ws[i], q)
  }

  /** What has been taken from a waiting write of `x` with data `q`. */
  function InFlight(ws: seq<Writer>, q: seq<byte>, x: Who): seq<byte> {
    if ws == [] then []
    else if ws[0].who == x then Prefix(q, ws[0].requested - |ws[0].left|)
    else InFlight(ws[1..], q, x)
  }

  lemma {:induction false} FlightAbsent(ws: seq<Writer>, q: seq<byte>, x: Who)
    requires Absent(ws, x)
    ensures InFlight(ws, q, x) == []
  {
    if ws != [] { FlightAbsent(ws[1..], q, x); }
  }

  lemma {:induction false} FlightAt(a: seq<Writer>, w: Writer, b: seq<Writer>, q: seq<byte>, x: Who)
    requires Absent(a, w.who)
    ensures InFlight(a + [w] + b, q, x) == if w.who == x then Prefix(q, w.requested - |w.left|)
            else InFlight(a + b, q, x)
  {
    if a == [] {
      assert a + [w] + b == [w] + b && ([w] + b)[1..] == b && a + b == b;
    } else {
      FlightAt(a[1..], w, b, q, x);
      assert (a + [w] + b)[1..] == a[1..] + [w] + b && (a + b)[1..] == a[1..] + b;
    }
  }

  /** What was taken from `x`: of its finished writes, then of the waiting one. */
  function Owed(l: Ledger, ws: seq<Writer>, x: Who): seq<byte> { l.past + InFlight(ws, l.offer, x) }

  function If(b: bool, c: seq<byte>): seq<byte> { if b then c else [] }

  lemma Shuffle(p: seq<byte>, f: seq<byte>, c: seq<byte>)
    ensures p + (f + c) == (p + f) + c && (p + f) + [] == p + f && p + [] == p && [] + c == c
    ensures f == [] ==> (p + c) + f == (p + f) + c
  {
  }

  lemma OwedBook(l: Ledger, ws: seq<Writer>, count: int, x: Who)
    requires Absent(ws, x)
    ensures Owed(Booked(l, count), ws, x) == Owed(l, ws, x) + Prefix(l.offer, count)
  {
    FlightAbsent(ws, l.offer, x);
    Shuffle(l.past, InFlight(ws, l.offer, x), Prefix(l.offer, count));
  }

  /** `x`'s books are right in `s`: `mine` is what was taken from it. */
  ghost predicate Right(ws: seq<Writer>, mine: seq<byte>, l: Ledger, x: Who) {
    Apart(ws) && Rests(ws, l.offer, x) && mine == Owed(l, ws, x)
  }

  // ---------- taking a byte from the first writer ----------

  lemma NextByte(q: seq<byte>, left: seq<byte>)
    requires 0 < |left| <= |q| && left == q[|q| - |left|..]
    ensures Prefix(q, |q| - |left| + 1) == Prefix(q, |q| - |left|) + [left[0]]
    ensures left[1..] == q[|q| - |left| + 1..]
  {
  }

  /** The first writer with its last byte gone. */
  lemma GoneApart(w: Writer, rest: seq<Writer>, q: seq<byte>, x: Who)
    requires Apart([w] + rest) && Rests([w] + rest, q, x)
    ensures Apart(rest) && Rests(rest, q, x) && Absent(rest, w.who)
  {
    var all := [w] + rest;
    forall i | 0 <= i < |rest| ensures (rest[i].who == x ==> Rest(rest[i], q)) && rest[i].who != w.who {
      assert all[0] == w && all[i + 1] == rest[i];
    }
    forall i, j | 0 <= i < j < |rest| ensures rest[i].who != rest[j].who {
      assert all[i + 1] == rest[i] && all[j + 1] == rest[j];
    }
  }

  lemma GoneOwed(w: Writer, rest: seq<Writer>, l: Ledger)
    requires |w.left| == 1 && Rest(w, l.offer) && Absent(rest, w.who)
    ensures Owed(Booked(l, w.requested), rest, w.who) == Owed(l, [w] + rest, w.who) + [w.left[0]]
  {
    NextByte(l.offer, w.left);
    OwedBook(l, rest, w.requested, w.who);
    FlightAbsent(rest, l.offer, w.who);
    Shuffle(l.past, Prefix(l.offer, w.requested - 1), [w.left[0]]);
  }

  /** The first writer with its next byte gone. */
  lemma CutApart(w: Writer, w': Writer, rest: seq<Writer>, q: seq<byte>, x: Who)
    requires Apart([w] + rest) && Rests([w] + rest, q, x) && w'.who == w.who && (w.who == x ==> Rest(w', q))
    ensures Apart([w'] + rest) && Rests([w'] + rest, q, x)
  {
    var all, cut := [w] + rest, [w'] + rest;
    assert forall i :: 1 <= i < |cut| ==> cut[i] == all[i];
    assert forall i :: 0 <= i < |cut| ==> cut[i].who == all[i].who;
  }

  lemma CutOwed(w: Writer, rest: seq<Writer>, l: Ledger)
    requires |w.left| > 1 && Rest(w, l.offer)
    ensures Owed(l, [w.(left := w.left[1..])] + rest, w.who) == Owed(l, [w] + rest, w.who) + [w.left[0]]
  {
    NextByte(l.offer, w.left);
    Shuffle(l.past, Prefix(l.offer, w.requested - |w.left|), [w.left[0]]);
  }

  lemma OtherOwed(w: Writer, w': Writer, rest: seq<Writer>, l: Ledger, x: Who)
    requires w.who == w'.who != x
    ensures Owed(l, [w'] + rest, x) == Owed(l, [w] + rest, x) == Owed(l, rest, x)
  {
    assert ([w] + rest)[1..] == rest && ([w'] + rest)[1..] == rest;
  }

  /** `x`'s books after the first writer `w` gave a byte. */
  function TakeBook(w: Writer, l: Ledger, x: Who): Ledger {
    if w.who == x && |w.left| == 1 then Booked(l, w.requested) else l
  }

  lemma TakeMine(s: PipeState, w: Writer, rest: seq<Writer>, mine: seq<byte>, l: Ledger)
    requires s.writers == [w] + rest && w.left != [] && Right(s.writers, mine, l, w.who)
    ensures Right(Take(s, 1).writers, mine + [w.left[0]], TakeBook(w, l, w.who), w.who)
  {
    assert s.writers[0] == w && s.writers[1..] == rest;
    if |w.left| == 1 {
      GoneApart(w, rest, l.offer, w.who);
      GoneOwed(w, rest, l);
    } else {
      NextByte(l.offer, w.left);
      CutApart(w, w.(left := w.left[1..]), rest, l.offer, w.who);
      CutOwed(w, rest, l);
    }
  }

  lemma TakeOther(s: PipeState, w: Writer, rest: seq<Writer>, mine: seq<byte>, l: Ledger, x: Who)
    requires s.writers == [w] + rest && w.left != [] && w.who != x && Right(s.writers, mine, l, x)
    ensures Right(Take(s, 1).writers, mine, l, x)
  {
    assert s.writers[0] == w && s.writers[1..] == rest;
    var w' := w.(left := w.left[1..]);
    OtherOwed(w, w', rest, l, x);
    if |w.left| == 1 { GoneApart(w, rest, l.offer, x); } else { CutApart(w, w', rest, l.offer, x); }
  }

  lemma TakeCloses(s: PipeState, l: Ledger, x: Who)
    requires HasOffer(s)
    ensures Closes(s.log, Take(s, 1).log, l, TakeBook(s.writers[0], l, x), x)
  {
    ClosesSame(s.log, l, x);
    ClosesPush(s.log, s.log, l, l, Finished(s.writers[0]), x);
  }

  lemma TakeRight(s: PipeState, mine: seq<byte>, l: Ledger, x: Who)
    requires HasOffer(s) && Right(s.writers, mine, l, x)
    ensures var w := s.writers[0];
            Right(Take(s, 1).writers, mine + If(w.who == x, [w.left[0]]), TakeBook(w, l, x), x)
  {
    var w, rest := s.writers[0], s.writers[1..];
    if w.who == x {
      TakeMine(s, w, rest, mine, l);
    } else {
      TakeOther(s, w, rest, mine, l, x);
      assert mine + [] == mine;
    }
  }

  // ---------- getting ----------

  /** Whose bytes a get takes. */
  function TakeTags(s: PipeState, n: nat): seq<Tag<Who>>
    decreases n
  {
    if n == 0 || !CanGet(s) then []
    else (if HasOffer(s) then [Tag(s.writers[0].who, s.writers[0].left[0])] else []) + TakeTags(GetByte(s).0, n - 1)
  }

  /** Getting a byte while a writer waits takes its first. */
  lemma GetByteTakes(s: PipeState)
    requires CanGet(s)
    ensures var u := GetByte(s).0;
            if HasOffer(s) then
              u.writers == Take(s, 1).writers && u.accepted == Take(s, 1).accepted && u.log == Take(s, 1).log
            else u.writers == s.writers && u.accepted == s.accepted && u.log == s.log
  {
  }

  lemma {:induction false} MineConcat(a: seq<Tag<Who>>, b: seq<Tag<Who>>, x: Who)
    ensures Mine(a + b, x) == Mine(a, x) + Mine(b, x) && Plain(a + b) == Plain(a) + Plain(b)
    decreases |b|
  {
    if b == [] {
      assert a + b == a;
    } else {
      var c, g := b[..|b| - 1], b[|b| - 1];
      assert b == c + [g] && a + b == (a + c) + [g];
      MineConcat(a, c, x);
      TagPush(a + c, g, x);
      TagPush(c, g, x);
    }
  }

  /** `x`'s books after a get. */
  function GetBook(s: PipeState, n: nat, l: Ledger, x: Who): Ledger
    decreases n
  {
    if n == 0 || !CanGet(s) then l
    else GetBook(GetByte(s).0, n - 1, if HasOffer(s) then TakeBook(s.writers[0], l, x) else l, x)
  }

  lemma {:induction false} GetCloses(s: PipeState, n: nat, l: Ledger, x: Who)
    ensures Closes(s.log, GetAll(s, n).0.log, l, GetBook(s, n, l, x), x)
    decreases n
  {
    if n == 0 || !CanGet(s) {
      ClosesSame(s.log, l, x);
    } else {
      var u := GetByte(s).0;
      var m := if HasOffer(s) then TakeBook(s.writers[0], l, x) else l;
      GetByteTakes(s);
      if HasOffer(s) { TakeCloses(s, l, x); } else { ClosesSame(s.log, l, x); }
      GetAllOnce(s, n);
      GetCloses(u, n - 1, m, x);
      ClosesTwice(s.log, u.log, GetAll(u, n - 1).0.log, l, m, GetBook(u, n - 1, m, x), x);
    }
  }

  lemma {:induction false} GetAllRight(s: PipeState, n: nat, mine: seq<byte>, l: Ledger, x: Who)
    requires Right(s.writers, mine, l, x)
    ensures Right(GetAll(s, n).0.writers, mine + Mine(TakeTags(s, n), x), GetBook(s, n, l, x), x)
    decreases n
  {
    if n == 0 || !CanGet(s) {
      assert mine + [] == mine;
    } else {
      var u := GetByte(s).0;
      GetAllOnce(s, n);
      GetByteTakes(s);
      if HasOffer(s) {
        var w := s.writers[0];
        var g := Tag(w.who, w.left[0]);
        TakeRight(s, mine, l, x);
        GetAllRight(u, n - 1, mine + If(w.who == x, [w.left[0]]), TakeBook(w, l, x), x);
        OneTag(g, TakeTags(u, n - 1), mine, x);
      } else {
        GetAllRight(u, n - 1, mine, l, x);
        assert [] + TakeTags(u, n - 1) == TakeTags(u, n - 1);
      }
    }
  }

  lemma OneTag(g: Tag<Who>, ts: seq<Tag<Who>>, mine: seq<byte>, x: Who)
    ensures mine + Mine([g] + ts, x) == (mine + If(g.who == x, [g.b])) + Mine(ts, x)
    ensures Plain([g] + ts) == [g.b] + Plain(ts)
  {
    MineConcat([g], ts, x);
    TagPush([], g, x);
    assert [] + [g] == [g];
    Shuffle(mine, If(g.who == x, [g.b]), Mine(ts, x));
    Shuffle([], [], If(g.who == x, [g.b]));
  }

  lemma {:induction false} GetAccepts(s: PipeState, n: nat)
    ensures GetAll(s, n).0.accepted == s.accepted + Plain(TakeTags(s, n))
    decreases n
  {
    if n == 0 || !CanGet(s) {
      assert s.accepted + [] == s.accepted;
    } else {
      var u := GetByte(s).0;
      GetAllOnce(s, n);
      GetByteTakes(s);
      GetAccepts(u, n - 1);
      if HasOffer(s) {
        var w := s.writers[0];
        assert w.left[..1] == [w.left[0]];
        OneTag(Tag(w.who, w.left[0]), TakeTags(u, n - 1), [], w.who);
        Assoc(s.accepted, [w.left[0]], Plain(TakeTags(u, n - 1)));
      } else {
        assert [] + TakeTags(u, n - 1) == TakeTags(u, n - 1);
      }
    }
  }

  // ---------- putting ----------

  /** A put takes a prefix of the data and leaves the waiting writers alone. */
  ghost predicate Puts(s: PipeState, data: seq<byte>, u: PipeState, rest: seq<byte>) {
    && |rest| <= |data| && rest == data[|data| - |rest|..] && u.writers == s.writers
    && u.accepted == s.accepted + data[..|data| - |rest|]
  }

  lemma PutByteWrites(s: PipeState, b: byte, l: Ledger, x: Who)
    requires CanPut(s)
    ensures var u := PutByte(s, b);
            u.writers == s.writers && u.accepted == s.accepted + [b] && Closes(s.log, u.log, l, l, x)
  {
    ClosesSame(s.log, l, x);
    if s.readers != [] {
      var r := s.readers[0];
      ClosesPush(s.log, s.log, l, l, ReadResult(r.(got := r.got + [b], want := r.want - 1)), x);
    }
  }

  lemma OneMore(s: seq<byte>, data: seq<byte>, k: nat)
    requires 0 < |data| && k <= |data| - 1
    ensures (s + [data[0]]) + data[1..][..k] == s + data[..k + 1]
    ensures data[1..][k..] == data[k + 1..]
  {
  }

  lemma {:induction false} PutAllPuts(s: PipeState, data: seq<byte>, l: Ledger, x: Who)
    ensures Puts(s, data, PutAll(s, data).0, PutAll(s, data).1) && Closes(s.log, PutAll(s, data).0.log, l, l, x)
    decreases |data|
  {
    if data == [] || !CanPut(s) {
      ClosesSame(s.log, l, x);
      assert s.accepted + [] == s.accepted;
    } else {
      var u := PutByte(s, data[0]);
      var (v, rest) := PutAll(u, data[1..]);
      PutByteWrites(s, data[0], l, x);
      PutAllPuts(u, data[1..], l, x);
      ClosesTwice(s.log, u.log, v.log, l, l, l, x);
      OneMore(s.accepted, data, |data| - 1 - |rest|);
    }
  }

  lemma InsertApart(ws: seq<Writer>, w: Writer)
    requires Apart(ws) && Absent(ws, w.who)
    ensures Apart(Insert(ws, w, WriterPrio))
  {
    var k, q := Place(ws, w, WriterPrio, 0), Insert(ws, w, WriterPrio);
    assert forall i :: 0 <= i < |q| ==> q[i] == if i < k then ws[i] else if i == k then w else ws[i - 1];
  }

  lemma InsertRests(ws: seq<Writer>, w: Writer, q: seq<byte>, x: Who)
    requires Rests(ws, q, x) && (w.who == x ==> Rest(w, q))
    ensures Rests(Insert(ws, w, WriterPrio), q, x)
  {
  }

  lemma InsertOwed(l: Ledger, ws: seq<Writer>, w: Writer, x: Who)
    requires Absent(ws, w.who)
    ensures Owed(l, Insert(ws, w, WriterPrio), x) ==
            Owed(l, ws, x) + If(w.who == x, Prefix(l.offer, w.requested - |w.left|))
  {
    var k := Place(ws, w, WriterPrio, 0);
    FlightAt(ws[..k], w, ws[k..], l.offer, x);
    assert ws == ws[..k] + ws[k..];
    if w.who == x { FlightAbsent(ws, l.offer, x); }
    Shuffle(l.past, InFlight(ws, l.offer, x), Prefix(l.offer, w.requested - |w.left|));
  }

  lemma PendRight(ws: seq<Writer>, w: Writer, mine: seq<byte>, l: Ledger, x: Who)
    requires Right(ws, mine, l, x) && Absent(ws, w.who) && (w.who == x ==> Rest(w, l.offer))
    ensures Right(Insert(ws, w, WriterPrio), mine + If(w.who == x, Prefix(l.offer, w.requested - |w.left|)), l, x)
  {
    InsertApart(ws, w);
    InsertRests(ws, w, l.offer, x);
    InsertOwed(l, ws, w, x);
  }

  /** A new write of `x`, which is not waiting. */
  lemma OfferRight(ws: seq<Writer>, mine: seq<byte>, l: Ledger, data: seq<byte>, x: Who)
    requires Right(ws, mine, l, x) && Absent(ws, x)
    ensures Right(ws, mine, l.(offer := data), x)
  {
    FlightAbsent(ws, l.offer, x);
    FlightAbsent(ws, data, x);
  }

  /** Bytes of the data a put of `who` moves, and `x`'s books after it. */
  function PutTake(s: PipeState, data: seq<byte>, minXfer: nat, noWait: bool): seq<byte> {
    if noWait && Capacity(s) < minXfer then [] else Prefix(data, |data| - |PutAll(s, data).1|)
  }

  function PutBook(s: PipeState, who: Who, data: seq<byte>, minXfer: nat, noWait: bool, l: Ledger, x: Who): Ledger {
    if who != x then l
    else if !noWait && PutAll(s, data).1 != [] then l.(offer := data)
    else Booked(l.(offer := data), |PutTake(s, data, minXfer, noWait)|)
  }

  lemma PutOther(s: PipeState, who: Who, prio: int, data: seq<byte>, minXfer: nat, noWait: bool, mine: seq<byte>,
                 l: Ledger, x: Who)
    requires Right(s.writers, mine, l, x) && Absent(s.writers, who) && who != x && (who.Async? ==> !noWait)
    ensures Right(PutCall(s, who, prio, data, minXfer, noWait).writers, mine, l, x)
  {
    PutAllPuts(s, data, l, x);
    PendRight(s.writers, Writer(who, prio, |data|, minXfer, PutAll(s, data).1), mine, l, x);
    assert mine + [] == mine;
  }

  lemma PutMine(s: PipeState, prio: int, data: seq<byte>, minXfer: nat, noWait: bool, mine: seq<byte>, l: Ledger,
                x: Who)
    requires Right(s.writers, mine, l, x) && Absent(s.writers, x) && (x.Async? ==> !noWait)
    ensures Right(PutCall(s, x, prio, data, minXfer, noWait).writers, mine + PutTake(s, data, minXfer, noWait),
                  PutBook(s, x, data, minXfer, noWait, l, x), x)
  {
    var m, rest := l.(offer := data), PutAll(s, data).1;
    OfferRight(s.writers, mine, l, data, x);
    PutAllPuts(s, data, m, x);
    if !noWait && rest != [] {
      PendRight(s.writers, Writer(x, prio, |data|, minXfer, rest), mine, m, x);
    } else {
      OwedBook(m, s.writers, |PutTake(s, data, minXfer, noWait)|, x);
    }
  }

  lemma PutCloses(s: PipeState, who: Who, prio: int, data: seq<byte>, minXfer: nat, noWait: bool, l: Ledger, x: Who)
    requires who.Async? ==> !noWait
    ensures Closes(s.log, PutCall(s, who, prio, data, minXfer, noWait).log, if who == x then l.(offer := data) else l,
                   PutBook(s, who, data, minXfer, noWait, l, x), x)
  {
    var m := if who == x then l.(offer := data) else l;
    var w := Writer(who, prio, |data|, minXfer, data);
    var (u, rest) := PutAll(s, data);
    PutAllPuts(s, data, m, x);
    if noWait && Capacity(s) < minXfer {
      ClosesSame(s.log, m, x);
      ClosesPush(s.log, s.log, m, m, WriteDone(who.tid, Eio, 0), x);
    } else if rest == [] {
      ClosesPush(s.log, u.log, m, m, Finished(w), x);
    } else if noWait {
      ClosesPush(s.log, u.log, m, m, WriteResult(w.(left := rest)), x);
    }
  }

  lemma PutAccepts(s: PipeState, who: Who, prio: int, data: seq<byte>, minXfer: nat, noWait: bool)
    requires who.Async? ==> !noWait
    ensures PutCall(s, who, prio, data, minXfer, noWait).accepted == s.accepted + PutTake(s, data, minXfer, noWait)
  {
    PutAllPuts(s, data, Ledger([], []), who);
    assert s.accepted + [] == s.accepted;
  }

  // ---------- timeouts ----------

  lemma RemoveRests(ws: seq<Writer>, i: nat, q: seq<byte>, x: Who)
    requires i < |ws| && Rests(ws, q, x)
    ensures Rests(RemoveAt(ws, i), q, x)
  {
    var r := RemoveAt(ws, i);
    forall j | 0 <= j < |r| && r[j].who == x ensures Rest(r[j], q) { assert r[j] == ws[if j < i then j else j + 1]; }
  }

  lemma RemoveApart(ws: seq<Writer>, i: nat)
    requires i < |ws| && Apart(ws)
    ensures Apart(RemoveAt(ws, i)) && Absent(RemoveAt(ws, i), ws[i].who)
  {
    var q := RemoveAt(ws, i);
    assert forall j :: 0 <= j < |q| ==> q[j] == ws[if j < i then j else j + 1];
  }

  function ExpireBook(w: Writer, l: Ledger, x: Who): Ledger {
    if w.who == x then Booked(l, w.requested - |w.left|) else l
  }

  lemma ExpireRight(ws: seq<Writer>, i: nat, mine: seq<byte>, l: Ledger, x: Who)
    requires i < |ws| && Right(ws, mine, l, x)
    ensures Right(RemoveAt(ws, i), mine, ExpireBook(ws[i], l, x), x)
  {
    var w, q := ws[i], RemoveAt(ws, i);
    RemoveApart(ws, i);
    RemoveRests(ws, i, l.offer, x);
    SplitAt(ws, i);
    FlightAt(ws[..i], w, ws[i + 1..], l.offer, x);
    if w.who == x {
      OwedBook(l, q, w.requested - |w.left|, x);
      FlightAbsent(q, l.offer, x);
      Shuffle(l.past, [], Prefix(l.offer, w.requested - |w.left|));
    }
  }

  lemma ExpireCloses(s: PipeState, i: nat, l: Ledger, x: Who)
    requires i < |s.writers|
    ensures Closes(s.log, ExpireWriter(s, i).log, l, ExpireBook(s.writers[i], l, x), x)
  {
    ClosesSame(s.log, l, x);
    ClosesPush(s.log, s.log, l, l, WriteResult(s.writers[i]), x);
  }

  // ---------- steps ----------

  /** The writer of a put; an asynchronous one is the descriptor on top of the stack. */
  function Taker(s: PipeState, e: Event): Who
    requires e.Put? || (e.BlockPut? && s.asyncFree != [])
  {
    if e.Put? then Caller(e.tid) else Async(s.asyncFree[|s.asyncFree| - 1])
  }

  predicate IsPut(s: PipeState, e: Event) { e.Put? || (e.BlockPut? && s.asyncFree != []) }

  /** The state a put starts from, its minimum and its waiting mode. */
  function PutFrom(s: PipeState, e: Event): PipeState {
    if e.BlockPut? && s.asyncFree != [] then s.(asyncFree := s.asyncFree[..|s.asyncFree| - 1]) else s
  }

  function PutMin(e: Event): nat
    requires e.Put? || e.BlockPut?
  {
    if e.Put? then e.minXfer else |e.data|
  }

  predicate PutNow(e: Event) { e.Put? && e.noWait }

  lemma PutStep(s: PipeState, e: Event)
    requires Enabled(s, e) && IsPut(s, e)
    ensures Step(s, e) == PutCall(PutFrom(s, e), Taker(s, e), e.prio, e.data, PutMin(e), PutNow(e))
  {
  }

  /** Whose bytes a call takes. */
  function Takes(s: PipeState, e: Event): seq<Tag<Who>> {
    if IsPut(s, e) then Tagged(Taker(s, e), PutTake(PutFrom(s, e), e.data, PutMin(e), PutNow(e)))
    else if e.Get? && !(e.noWait && |s.ring| + |Stream(s.writers)| < e.minXfer) then TakeTags(s, e.n)
    else []
  }

  function Offered(l: Ledger, s: PipeState, e: Event, x: Who): Ledger {
    if IsPut(s, e) && Taker(s, e) == x then l.(offer := e.data) else l
  }

  /** `x`'s books after a call. */
  function Settled(l: Ledger, s: PipeState, e: Event, t: PipeState, x: Who): Ledger {
    CloseAll(Offered(l, s, e, x), if |s.log| <= |t.log| then t.log[|s.log|..] else [], x)
  }

  lemma {:induction false} TaggedIs(who: Who, bs: seq<byte>, x: Who)
    ensures Mine(Tagged(who, bs), x) == If(who == x, bs) && Plain(Tagged(who, bs)) == bs
  {
    TaggedMine([], who, bs, x);
    assert [] + Tagged(who, bs) == Tagged(who, bs);
  }

  lemma PutRight(s: PipeState, e: Event, mine: seq<byte>, l: Ledger, x: Who)
    requires Enabled(s, e) && IsPut(s, e) && Absent(s.writers, Taker(s, e)) && Right(s.writers, mine, l, x)
    ensures var t := Step(s, e); Right(t.writers, mine + Mine(Takes(s, e), x), Settled(l, s, e, t, x), x)
  {
    var u, who, m, now := PutFrom(s, e), Taker(s, e), PutMin(e), PutNow(e);
    PutStep(s, e);
    PutCloses(u, who, e.prio, e.data, m, now, l, x);
    TaggedIs(who, PutTake(u, e.data, m, now), x);
    if who == x {
      PutMine(u, e.prio, e.data, m, now, mine, l, x);
    } else {
      PutOther(u, who, e.prio, e.data, m, now, mine, l, x);
      assert mine + [] == mine;
    }
  }

  lemma GetRight(s: PipeState, e: Event, mine: seq<byte>, l: Ledger, x: Who)
    requires Enabled(s, e) && e.Get? && Right(s.writers, mine, l, x)
    ensures var t := Step(s, e); Right(t.writers, mine + Mine(Takes(s, e), x), Settled(l, s, e, t, x), x)
  {
    assert mine + [] == mine;
    if e.noWait && |s.ring| + |Stream(s.writers)| < e.minXfer {
      ClosesSame(s.log, l, x);
      ClosesPush(s.log, s.log, l, l, ReadDone(e.tid, Eio, []), x);
    } else {
      var (u, bs) := GetAll(s, e.n);
      var m := GetBook(s, e.n, l, x);
      GetAllRight(s, e.n, mine, l, x);
      GetCloses(s, e.n, l, x);
      ClosesPush(s.log, u.log, l, m, ReadResult(Reader(e.tid, e.prio, e.n, e.minXfer, bs, e.n - |bs|)), x);
    }
  }

  lemma TimeoutRight(s: PipeState, e: Event, mine: seq<byte>, l: Ledger, x: Who)
    requires Enabled(s, e) && !IsPut(s, e) && !e.Get? && Right(s.writers, mine, l, x)
    ensures var t := Step(s, e); Right(t.writers, mine, Settled(l, s, e, t, x), x)
  {
    ClosesSame(s.log, l, x);
    if e.ReaderTimeout? {
      ClosesPush(s.log, s.log, l, l, ReadResult(s.readers[e.i]), x);
    } else if e.WriterTimeout? {
      ExpireRight(s.writers, e.i, mine, l, x);
      ExpireCloses(s, e.i, l, x);
    }
  }

  /** A call of a thread that is not waiting; a descriptor on the stack is not. */
  ghost predicate Free(s: PipeState, e: Event) { IsPut(s, e) ==> Absent(s.writers, Taker(s, e)) }

  lemma StepRight(s: PipeState, e: Event, mine: seq<byte>, l: Ledger, x: Who)
    requires Enabled(s, e) && Free(s, e) && Right(s.writers, mine, l, x)
    ensures var t := Step(s, e); Right(t.writers, mine + Mine(Takes(s, e), x), Settled(l, s, e, t, x), x)
  {
    if IsPut(s, e) {
      PutRight(s, e, mine, l, x);
    } else if e.Get? {
      GetRight(s, e, mine, l, x);
    } else {
      TimeoutRight(s, e, mine, l, x);
      assert mine + [] == mine;
    }
  }

  lemma StepAccepts(s: PipeState, e: Event)
    requires Enabled(s, e)
    ensures Step(s, e).accepted == s.accepted + Plain(Takes(s, e))
  {
    assert s.accepted + [] == s.accepted;
    if IsPut(s, e) {
      PutStep(s, e);
      PutAccepts(PutFrom(s, e), Taker(s, e), e.prio, e.data, PutMin(e), PutNow(e));
      TaggedIs(Taker(s, e), PutTake(PutFrom(s, e), e.data, PutMin(e), PutNow(e)), Taker(s, e));
    } else if e.Get? {
      GetAccepts(s, e.n);
    }
  }

  // ---------- runs ----------

  lemma {:induction false} FreedLater(ws: seq<Writer>, i: nat, d: nat)
    requires i < |ws| && ws[i].who == Async(d)
    ensures d in multiset(FinishFree(ws))
  {
    if i == 0 {
      assert FinishFree(ws) == [d] + FinishFree(ws[1..]);
    } else {
      FreedLater(ws[1..], i - 1, d);
    }
  }

  /** The descriptor on top of the stack is not waiting. */
  lemma TopIsFree(s: PipeState, pool: multiset<nat>)
    requires PoolIs(s, pool) && s.asyncFree != [] && forall d :: pool[d] <= 1
    ensures Absent(s.writers, Async(s.asyncFree[|s.asyncFree| - 1]))
  {
    var d := s.asyncFree[|s.asyncFree| - 1];
    assert d in s.asyncFree;
    var f := multiset(FinishFree(s.writers));
    assert multiset(s.asyncFree)[d] > 0 && multiset(s.asyncFree)[d] + f[d] == pool[d];
    forall i | 0 <= i < |s.writers| ensures s.writers[i].who != Async(d) {
      if s.writers[i].who == Async(d) { FreedLater(s.writers, i, d); }
    }
  }

  /** A thread that waits in a write makes no calls. */
  ghost predicate Polite(states: seq<PipeState>, events: seq<Event>) {
    && IsRun(states, events)
    && forall i {:trigger events[i]} :: 0 <= i < |events| ==>
         (events[i].Put? ==> Absent(states[i].writers, Caller(events[i].tid)))
  }

  lemma Taken(states: seq<PipeState>, events: seq<Event>, i: nat, s: PipeState, e: Event, t: PipeState)
    requires Polite(states, events) && i < |events| && s == states[i] && e == events[i] && t == states[i + 1]
    ensures Enabled(s, e) && t == Step(s, e) && (e.Put? ==> Absent(s.writers, Caller(e.tid)))
  {
    assert Follows(s, e, t);
  }

  lemma PoolOnce(free: seq<nat>)
    requires NoRepeats(free)
    ensures forall d :: multiset(free)[d] <= 1
  {
    forall d ensures multiset(free)[d] <= 1 { Once(free, d); }
  }

  lemma {:induction false} Once(free: seq<nat>, d: nat)
    requires NoRepeats(free)
    ensures multiset(free)[d] <= 1
  {
    if free != [] {
      var k := |free| - 1;
      assert free == free[..k] + [free[k]];
      Once(free[..k], d);
      if free[k] == d { assert d !in free[..k]; }
    }
  }

  lemma RunPool(size: nat, free: seq<nat>, states: seq<PipeState>, events: seq<Event>, n: nat, s: PipeState)
    requires IsRun(states, events) && states[0] == Init(size, free) && n < |states| && s == states[n]
    ensures PoolIs(s, multiset(free))
  {
    EveryRunIsSafe(size, free, states, events, n);
  }

  /** A step of a polite run. */
  ghost predicate Goes(s: PipeState, e: Event, t: PipeState) { Enabled(s, e) && t == Step(s, e) && Free(s, e) }

  lemma RunGoes(size: nat, free: seq<nat>, states: seq<PipeState>, events: seq<Event>, i: nat, s: PipeState, e: Event,
                t: PipeState)
    requires Polite(states, events) && states[0] == Init(size, free) && NoRepeats(free)
    requires i < |events| && s == states[i] && e == events[i] && t == states[i + 1]
    ensures Goes(s, e, t)
  {
    Taken(states, events, i, s, e, t);
    RunPool(size, free, states, events, i, s);
    PoolOnce(free);
    if e.BlockPut? && s.asyncFree != [] { TopIsFree(s, multiset(free)); }
  }

  /** The acceptances and `x`'s books kept along a run: `a[i]` and `l[i]` after `i` calls. */
  ghost predicate Kept(states: seq<PipeState>, events: seq<Event>, a: seq<seq<Tag<Who>>>, l: seq<Ledger>, x: Who) {
    && |a| == |l| == |states| == |events| + 1 && a[0] == [] && l[0] == Ledger([], [])
    && forall i {:trigger events[i]} :: 0 <= i < |events| ==>
         a[i + 1] == a[i] + Takes(states[i], events[i]) &&
         l[i + 1] == Settled(l[i], states[i], events[i], states[i + 1], x)
  }

  lemma KeptStep(states: seq<PipeState>, events: seq<Event>, a: seq<seq<Tag<Who>>>, l: seq<Ledger>, i: nat,
                 s: PipeState, e: Event, t: PipeState, x: Who)
    requires Kept(states, events, a, l, x) && i < |events| && s == states[i] && e == events[i] && t == states[i + 1]
    ensures a[i + 1] == a[i] + Takes(s, e) && l[i + 1] == Settled(l[i], s, e, t, x)
  {
  }

  /** All acceptances in order are the bytes taken, and `x`'s are what its books say. */
  ghost predicate Balances(s: PipeState, a: seq<Tag<Who>>, l: Ledger, x: Who) {
    Plain(a) == s.accepted && Right(s.writers, Mine(a, x), l, x)
  }

  lemma GoesBalances(s: PipeState, e: Event, t: PipeState, a: seq<Tag<Who>>, l: Ledger, x: Who)
    requires Goes(s, e, t) && Balances(s, a, l, x)
    ensures Balances(t, a + Takes(s, e), Settled(l, s, e, t, x), x)
  {
    StepRight(s, e, Mine(a, x), l, x);
    StepAccepts(s, e);
    MineConcat(a, Takes(s, e), x);
  }

  lemma BalancesAt(size: nat, free: seq<nat>, states: seq<PipeState>, events: seq<Event>, a: seq<seq<Tag<Who>>>,
                   l: seq<Ledger>, i: nat, x: Who)
    requires Polite(states, events) && states[0] == Init(size, free) && NoRepeats(free)
    requires Kept(states, events, a, l, x) && i < |events|
    ensures Balances(states[i], a[i], l[i], x) ==> Balances(states[i + 1], a[i + 1], l[i + 1], x)
  {
    var s, e, t := states[i], events[i], states[i + 1];
    KeptStep(states, events, a, l, i, s, e, t, x);
    RunGoes(size, free, states, events, i, s, e, t);
    if Balances(s, a[i], l[i], x) { GoesBalances(s, e, t, a[i], l[i], x); }
  }

  /** In every run, for every writer: the bytes accepted from it are, in order, the prefixes
      its finished writes reported followed by the prefix taken from its waiting write; what
      that one still offers is the rest of its data; and all acceptances in order are the
      bytes taken. */
  lemma {:induction false} WritesArePrefixes(size: nat, free: seq<nat>, states: seq<PipeState>, events: seq<Event>,
                                             a: seq<seq<Tag<Who>>>, l: seq<Ledger>, n: nat, x: Who)
    requires Polite(states, events) && states[0] == Init(size, free) && NoRepeats(free)
    requires Kept(states, events, a, l, x) && n < |states|
    ensures Balances(states[n], a[n], l[n], x)
    decreases n
  {
    if n > 0 {
      BalancesAt(size, free, states, events, a, l, n - 1, x);
      WritesArePrefixes(size, free, states, events, a, l, n - 1, x);
    }
  }
}
