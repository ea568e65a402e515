/** The byte copy loops between a pipe's circular buffer and its callers. */
module PipeRing {
  import opened Basics
  import opened PipeSpec
  import opened RingView

  /** `pipe_xfer` into the ring. */
  method CopyIn(dest: array<byte>, offset: nat, room: nat, src: seq<byte>) returns (n: nat)
    requires offset + room <= dest.Length
    modifies dest
    ensures n == Min(room, |src|)
    ensures dest[..] == Written(old(dest[..]), offset, src[..n])
  {
    n := if room < |src| then room else |src|;
    var i := 0;
    while i < n
      invariant 0 <= i <= n
      invariant dest[offset..offset + i] == src[..i]
      invariant dest[..offset] == old(dest[..offset]) && dest[offset + i..] == old(dest[offset + i..])
    {
      dest[offset + i] := src[i];
      i := i + 1;
    }
    assert dest[..] == dest[..offset] + dest[offset..offset + n] + dest[offset + n..];
    assert old(dest[..])[..offset] == old(dest[..offset]);
    assert old(dest[..])[offset + n..] == old(dest[offset + n..]);
  }

  /** The same, seen on the bytes stored. */
  method CopyRun(dest: array<byte>, ghost r: nat, w: nat, ghost used: nat, room: nat, src: seq<byte>) returns (n: nat)
    requires Shape(dest.Length, r, w, used) && room <= dest.Length - used && room <= dest.Length - w
    modifies dest
    ensures n == Min(room, |src|) && Shape(dest.Length, r, Wrap(w + n, dest.Length), used + n)
    ensures View(dest[..], r, used + n) == View(old(dest[..]), r, used) + src[..n]
  {
    n := CopyIn(dest, w, room, src);
    PutRun(old(dest[..]), r, w, used, src[..n]);
  }

  /** `pipe_xfer` out of the ring. */
  method CopyOut(src: array<byte>, offset: nat, len: nat, room: nat) returns (out: seq<byte>)
    requires offset + len <= src.Length
    ensures out == src[offset..offset + Min(room, len)]
  {
    var n := if room < len then room else len;
    out := [];
    var i := 0;
    while i < n
      invariant 0 <= i <= n && out == src[offset..offset + i]
    {
      out := out + [src[offset + i]];
      i := i + 1;
    }
  }

  lemma RunTaken(b: seq<byte>, r: nat, w: nat, used: nat, out: seq<byte>)
    requires Shape(|b|, r, w, used) && |out| <= used && |out| <= |b| - r && out == b[r..r + |out|]
    ensures Shape(|b|, Wrap(r + |out|, |b|), w, used - |out|)
    ensures out + View(b, Wrap(r + |out|, |b|), used - |out|) == View(b, r, used)
  {
    GetRun(b, r, w, used, |out|);
    Rejoin(out, View(b, Wrap(r + |out|, |b|), used - |out|), View(b, r, used));
  }

  lemma Rejoin(a: seq<byte>, b: seq<byte>, v: seq<byte>)
    requires |a| <= |v| && a == v[..|a|] && b == v[|a|..]
    ensures a + b == v
  {
  }

  /** A copy out of the run at the read index, as it shows in the ring. */
  method TakeRun(src: array<byte>, r: nat, ghost w: nat, ghost used: nat, run: nat, room: nat) returns (out: seq<byte>)
    requires Shape(src.Length, r, w, used) && run <= used && run <= src.Length - r
    ensures |out| == Min(room, run) && Shape(src.Length, Wrap(r + |out|, src.Length), w, used - |out|)
    ensures out + View(src[..], Wrap(r + |out|, src.Length), used - |out|) == View(src[..], r, used)
  {
    out := CopyOut(src, r, run, room);
    RunTaken(src[..], r, w, used, out);
  }
}
