/** A circular buffer as a bounded sequence; pipes and message queues keep their data so. */
module RingView {
  /** Index ranges the buffer code relies on; a buffer of size 0 keeps both indices at 0. */
  ghost predicate Shape(size: nat, r: nat, w: nat, used: nat) {
    && used <= size && (size == 0 ==> r == 0 && w == 0) && (size > 0 ==> r < size && w < size)
    && (w == r + used || w == r + used - size)
  }

  /** The stored entries, oldest first. */
  function View<T>(b: seq<T>, r: nat, used: nat): (v: seq<T>)
    requires r <= |b| && used <= |b|
    ensures |v| == used
  {
    if r + used <= |b| then b[r..r + used] else b[r..] + b[..r + used - |b|]
  }

  function Wrap(i: nat, size: nat): nat { if i == size then 0 else i }

  /** A run written at `w` that stops at the free space and at the buffer's end appends to
      the stored entries. */
  lemma PutRun<T>(b: seq<T>, r: nat, w: nat, used: nat, run: seq<T>)
    requires Shape(|b|, r, w, used) && |run| <= |b| - used && |run| <= |b| - w
    ensures var b' := Written(b, w, run);
            && Shape(|b|, r, Wrap(w + |run|, |b|), used + |run|)
            && View(b', r, used + |run|) == View(b, r, used) + run
  {
    if run == [] {
      assert b[..w] + run + b[w..] == b;
    } else if r + used < |b| {
      WriteAfter(b, r, w, run);
    } else {
      WriteBefore(b, r, w, run);
      Regroup(b[r..], b[..w], run);
      assert w == 0 ==> b[r..] + b[..w] == b[r..];
    }
  }

  function Written<T>(b: seq<T>, w: nat, run: seq<T>): seq<T>
    requires w + |run| <= |b|
  {
    b[..w] + run + b[w + |run|..]
  }

  lemma WriteAfter<T>(b: seq<T>, r: nat, w: nat, run: seq<T>)
    requires r <= w && w + |run| <= |b|
    ensures Written(b, w, run)[r..w + |run|] == b[r..w] + run
  {
  }

  lemma WriteBefore<T>(b: seq<T>, r: nat, w: nat, run: seq<T>)
    requires w + |run| <= r <= |b|
    ensures Written(b, w, run)[r..] == b[r..] && Written(b, w, run)[..w + |run|] == b[..w] + run
  {
  }

  lemma Regroup<T>(a: seq<T>, b: seq<T>, c: seq<T>)
    ensures (a + b) + c == a + (b + c)
  {
  }

  /** A run read at `r` is a prefix of the stored entries. */
  lemma GetRun<T>(b: seq<T>, r: nat, w: nat, used: nat, k: nat)
    requires Shape(|b|, r, w, used) && k <= used && k <= |b| - r
    ensures Shape(|b|, Wrap(r + k, |b|), w, used - k)
    ensures View(b, Wrap(r + k, |b|), used - k) == View(b, r, used)[k..]
    ensures b[r..r + k] == View(b, r, used)[..k]
  {
    if r + used <= |b| {
      assert b[r..r + used][k..] == b[r + k..r + used] && b[r..r + used][..k] == b[r..r + k];
    } else {
      var m := r + used - |b|;
      assert (b[r..] + b[..m])[k..] == b[r + k..] + b[..m] && (b[r..] + b[..m])[..k] == b[r..r + k];
    }
  }
}
