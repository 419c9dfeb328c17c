/**
 * The per-channel sample buffer policy shared by both sensors: a fixed array
 * of MAX_BUFFER_SIZE readings and a size counter. A push on a full buffer
 * first shifts every entry left by one (evicting the oldest) and then
 * appends, so the buffer never grows past its capacity and never drops the
 * newest reading.
 *
 * shift_buffer comes from utils.h, which is not part of this model; ShiftBuffer
 * below gives it the behaviour its call sites rely on (shift left by one,
 * size decremented).
 */
module SampleBuffers {
  import opened SensorTypes

  /** The window after pushing v onto s: oldest entry evicted when full, then v appended. */
  function Pushed(s: seq<real>, v: real): (r: seq<real>)
    requires |s| <= MAX_BUFFER_SIZE
  {
    if |s| >= MAX_BUFFER_SIZE then s[1..] + [v] else s + [v]
  }

  /** The last n entries of s (all of s when it is shorter). */
  function LastN(s: seq<real>, n: nat): (r: seq<real>)
  {
    if |s| <= n then s else s[|s| - n..]
  }

  /** The window after pushing every value of xs onto s, first to last. */
  function PushAll(s: seq<real>, xs: seq<real>): (r: seq<real>)
    requires |s| <= MAX_BUFFER_SIZE
    ensures |r| <= MAX_BUFFER_SIZE
  {
    if |xs| == 0 then s
    else
      var w := PushAll(s, xs[..|xs| - 1]);
      Pushed(w, xs[|xs| - 1])
  }

  /** One push keeps the window equal to the newest MAX_BUFFER_SIZE readings. */
  lemma PushedIsLastN(w: seq<real>, x: real)
    ensures Pushed(LastN(w, MAX_BUFFER_SIZE), x) == LastN(w + [x], MAX_BUFFER_SIZE)
  {
    if |w| >= MAX_BUFFER_SIZE {
      var n := MAX_BUFFER_SIZE;
      assert LastN(w, n)[1..] + [x] == (w + [x])[|w| + 1 - n..];
    }
  }

  /**
   * Eviction: starting from any window, after pushing xs the buffer holds
   * exactly the newest MAX_BUFFER_SIZE readings of the old contents followed
   * by xs, in insertion order. From an empty buffer and more than ten
   * pushes, that is the last ten values pushed.
   */
  lemma {:induction false} PushAllKeepsNewest(s: seq<real>, xs: seq<real>)
    requires |s| <= MAX_BUFFER_SIZE
    ensures PushAll(s, xs) == LastN(s + xs, MAX_BUFFER_SIZE)
  {
    if |xs| > 0 {
      var front := xs[..|xs| - 1];
      PushAllKeepsNewest(s, front);
      PushedIsLastN(s + front, xs[|xs| - 1]);
      assert s + front + [xs[|xs| - 1]] == s + xs;
    }
  }

  /** From an empty buffer, N >= MAX_BUFFER_SIZE pushes leave the last ten values pushed. */
  lemma FromEmpty(xs: seq<real>)
    requires |xs| >= MAX_BUFFER_SIZE
    ensures PushAll([], xs) == xs[|xs| - MAX_BUFFER_SIZE..]
  {
    PushAllKeepsNewest([], xs);
    assert [] + xs == xs;
  }

  /** shift_buffer: entries 1..size-1 move down by one and the size drops by one. */
  method ShiftBuffer(buf: array<real>, size: nat) returns (newSize: nat)
    requires 1 <= size <= buf.Length
    modifies buf
    ensures newSize == size - 1
    ensures buf[..newSize] == old(buf[1..size])
    ensures buf[newSize..] == old(buf[newSize..])
  {
    var i := 0;
    while i < size - 1
      invariant 0 <= i <= size - 1
      invariant buf[..i] == old(buf[1..i + 1])
      invariant buf[i..] == old(buf[i..])
    {
      buf[i] := buf[i + 1];
      i := i + 1;
    }
    newSize := size - 1;
  }

  /** The push every sensor performs: shift when at capacity, then store at index size. */
  method PushSample(buf: array<real>, size: nat, v: real) returns (newSize: nat)
    requires buf.Length == MAX_BUFFER_SIZE && size <= MAX_BUFFER_SIZE
    modifies buf
    ensures 1 <= newSize <= MAX_BUFFER_SIZE
    ensures buf[..newSize] == Pushed(old(buf[..size]), v)
  {
    newSize := size;
    if newSize >= MAX_BUFFER_SIZE {
      newSize := ShiftBuffer(buf, newSize);
    }
    buf[newSize] := v;
    newSize := newSize + 1;
  }
}
