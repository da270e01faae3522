/** Fixed-width integers of the source, written as ranges of `int`, and the
    32-bit clock arithmetic that every timeout in the component uses. */
module Integers {

  type uint8 = x: int | 0 <= x < 0x100
  type uint16 = x: int | 0 <= x < 0x1_0000
  type uint32 = x: int | 0 <= x < 0x1_0000_0000

  const INT64_MAX: int := 0x7FFF_FFFF_FFFF_FFFF
  const INT64_MIN: int := -0x8000_0000_0000_0000

  type int64 = x: int | INT64_MIN <= x <= INT64_MAX

  datatype Option<+T> = None | Some(value: T)

  /** A pointer and a length as the C++ interface passes them: the pointer may be null. */
  datatype Buffer = Null(length: nat) | Bytes(bytes: seq<uint8>)

  function Pow2(n: nat): (p: nat)
    ensures p > 0
  {
    if n == 0 then 1 else 2 * Pow2(n - 1)
  }

  function Max0(n: int): nat {
    if n < 0 then 0 else n
  }

  /** Reinterprets 32 bits as a two's complement number. */
  function AsInt32(x: uint32): int {
    if x >= 0x8000_0000 then x - 0x1_0000_0000 else x
  }

  /** A monotone real-time clock as a 32-bit counter shows it. */
  function Wrapped(time: nat): uint32 {
    time % 0x1_0000_0000
  }

  predicate Elapsed(now: uint32, start: uint32, interval: uint32) {
    (now - start) % 0x1_0000_0000 >= interval
  }

  /** The subtraction of two readings of the wrapping clock gives the real distance modulo 2^32. */
  lemma WrappedDistance(start: nat, now: nat)
    requires start <= now
    ensures (Wrapped(now) - Wrapped(start)) % 0x1_0000_0000 == (now - start) % 0x1_0000_0000
  {
    var M := 0x1_0000_0000;
    var a, b := now / M, start / M;
    assert now == a * M + Wrapped(now) && start == b * M + Wrapped(start);
    assert now - start == (a - b) * M + (Wrapped(now) - Wrapped(start));
  }

  /** However often the clock has wrapped, a reported timeout has really passed; and it is
      reported at once as long as the real distance has not itself reached a full wrap. */
  lemma ElapsedIsRealTime(start: nat, now: nat, interval: uint32)
    requires start <= now
    ensures Elapsed(Wrapped(now), Wrapped(start), interval) ==> now - start >= interval
    ensures now - start < 0x1_0000_0000 ==>
      (Elapsed(Wrapped(now), Wrapped(start), interval) <==> now - start >= interval)
  {
    WrappedDistance(start, now);
    assert (now - start) % 0x1_0000_0000 <= now - start;
  }

  lemma Pow2Values()
    ensures Pow2(0) == 1 && Pow2(1) == 2 && Pow2(2) == 4 && Pow2(3) == 8 && Pow2(4) == 16
    ensures Pow2(5) == 32 && Pow2(6) == 64 && Pow2(7) == 128 && Pow2(8) == 256
    ensures Pow2(15) == 0x8000 && Pow2(16) == 0x1_0000
    ensures Pow2(31) == 0x8000_0000 && Pow2(32) == 0x1_0000_0000
  {
    assert Pow2(8) == 256;
    assert Pow2(12) == 16 * Pow2(8);
    assert Pow2(16) == 16 * Pow2(12);
    assert Pow2(20) == 16 * Pow2(16);
    assert Pow2(24) == 16 * Pow2(20);
    assert Pow2(28) == 16 * Pow2(24);
    assert Pow2(31) == 8 * Pow2(28);
  }

  lemma {:induction false} Pow2Monotone(a: nat, b: nat)
    requires a <= b
    ensures Pow2(a) <= Pow2(b)
    decreases b
  {
    if a < b {
      Pow2Monotone(a, b - 1);
    }
  }
}
