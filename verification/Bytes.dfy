/** Little-endian integers in byte strings. */
module Bytes {

  type byte = b: int | 0 <= b < 256

  /** 256 to the power `n`. */
  function Span(n: nat): (p: nat)
    ensures p >= 1
  {
    if n == 0 then 1 else 256 * Span(n - 1)
  }

  /** The low `n` bytes of `x`, least significant first. */
  function ToLE(x: nat, n: nat): (b: seq<byte>)
    ensures |b| == n
    decreases n
  {
    if n == 0 then [] else [x % 256] + ToLE(x / 256, n - 1)
  }

  function FromLE(b: seq<byte>): (x: nat)
    ensures x < Span(|b|)
  {
    if b == [] then 0 else b[0] + 256 * FromLE(b[1..])
  }

  lemma {:induction false} LERoundTrip(x: nat, n: nat)
    requires x < Span(n)
    ensures FromLE(ToLE(x, n)) == x
    decreases n
  {
    if n > 0 {
      LERoundTrip(x / 256, n - 1);
      assert ToLE(x, n)[1..] == ToLE(x / 256, n - 1);
    }
  }

  lemma {:induction false} LEInverse(b: seq<byte>)
    ensures ToLE(FromLE(b), |b|) == b
    decreases |b|
  {
    if b != [] {
      LEInverse(b[1..]);
      assert (b[0] + 256 * FromLE(b[1..])) % 256 == b[0];
      assert (b[0] + 256 * FromLE(b[1..])) / 256 == FromLE(b[1..]);
    }
  }

  lemma SpanStep(n: nat)
    ensures Span(n + 8) == 0x1_0000_0000_0000_0000 * Span(n)
  {
    assert Span(n + 2) == 65536 * Span(n);
    assert Span(n + 4) == 65536 * Span(n + 2);
    assert Span(n + 6) == 65536 * Span(n + 4);
    assert Span(n + 8) == 65536 * Span(n + 6);
  }

  lemma Spans()
    ensures Span(4) == 0x1_0000_0000
    ensures Span(8) == 0x1_0000_0000_0000_0000
    ensures Span(32) ==
      0x1_0000_0000_0000_0000_0000_0000_0000_0000_0000_0000_0000_0000_0000_0000_0000_0000
  {
    assert Span(2) == 65536;
    assert Span(4) == 65536 * Span(2);
    assert Span(6) == 65536 * Span(4);
    assert Span(8) == 65536 * Span(6);
    SpanStep(8);
    SpanStep(16);
    SpanStep(24);
  }

  /** Two's-complement reading of an unsigned value below `2 * half`. */
  function Signed(x: int, half: int): int {
    if x < half then x else x - 2 * half
  }

  /** Two's-complement writing of a value between `-half` and `half`. */
  function Unsigned(x: int, half: int): nat
    requires -half <= x < half
  {
    if x >= 0 then x else x + 2 * half
  }
}
