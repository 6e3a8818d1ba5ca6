// Octets and the big-endian integers that both wire protocols are made of.
module Bytes {

  type byte = x: int | 0 <= x < 256

  type bytes = seq<byte>

  const U32_SPAN := 0x1_0000_0000
  const U64_SPAN := 0x1_0000_0000_0000_0000

  /** How many values fit in width octets. */
  function Span(width: nat): (n: nat)
    ensures n >= 1
  {
    if width == 0 then 1 else 256 * Span(width - 1)
  }

  /** The integer its first k octets denote, most significant first. */
  function Val(b: bytes, k: nat): (n: nat)
    requires k <= |b|
    ensures n < Span(k)
  {
    if k == 0 then 0 else Val(b, k - 1) * 256 + (b[k - 1] as int)
  }

  lemma {:induction false} ValInjective(a: bytes, b: bytes, k: nat)
    requires k <= |a| && k <= |b|
    ensures Val(a, k) == Val(b, k) <==> a[..k] == b[..k]
  {
    if k > 0 {
      ValInjective(a, b, k - 1);
      var x: int, y: int := a[k - 1], b[k - 1];
      assert a[..k] == a[..k - 1] + [a[k - 1]];
      assert b[..k] == b[..k - 1] + [b[k - 1]];
    }
  }

  /** The big-endian octets of n. */
  function Be(n: nat, width: nat): (b: bytes)
    requires n < Span(width)
    ensures |b| == width
    ensures Val(b, width) == n
  {
    if width == 0 then [] else
    var high := Be(n / 256, width - 1);
    var b := high + [n % 256];
    assert b[..width - 1] == high[..width - 1];
    ValInjective(b, high, width - 1);
    b
  }

  lemma Spans()
    ensures Span(1) == 0x100 && Span(4) == U32_SPAN && Span(8) == U64_SPAN
  {
    assert Span(2) == 0x1_0000 && Span(3) == 0x100_0000 && Span(5) == 0x100_0000_0000;
    assert Span(6) == 0x1_0000_0000_0000 && Span(7) == 0x100_0000_0000_0000;
  }

  function U32(b: bytes): (n: nat)
    requires |b| == 4
    ensures n < U32_SPAN
  {
    Spans();
    Val(b, |b|)
  }

  function Be32(n: nat): (b: bytes)
    requires n < U32_SPAN
    ensures |b| == 4 && U32(b) == n
  {
    Spans();
    Be(n, 4)
  }

  /** Four octets are determined by their value. */
  lemma Be32Inverse(b: bytes)
    requires |b| == 4
    ensures Be32(U32(b)) == b
  {
    var c := Be32(U32(b));
    ValInjective(b, c, 4);
    assert b[..4] == b && c[..4] == c;
  }

  function U64(b: bytes): (n: nat)
    requires |b| == 8
    ensures n < U64_SPAN
  {
    Spans();
    Val(b, |b|)
  }

  function Be64(n: nat): (b: bytes)
    requires n < U64_SPAN
    ensures |b| == 8 && U64(b) == n
  {
    Spans();
    Be(n, 8)
  }

  function Concat(chunks: seq<bytes>): bytes {
    if chunks == [] then [] else chunks[0] + Concat(chunks[1..])
  }
}
