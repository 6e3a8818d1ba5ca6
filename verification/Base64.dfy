// Canonical base64 in byte envelopes, section 4 of RFC 4648
// (packages/pyefz/src/pyefz/protocol.py:14-32).
module Base64 {
  import opened Bytes
  import opened Wrappers

  type sextet = x: int | 0 <= x < 64

  const PAD: byte := 61

  /** The letter for a value of the base64 alphabet. */
  function Letter(n: sextet): byte {
    if n < 26 then 65 + n else if n < 52 then 71 + n else if n < 62 then n - 4 else if n == 62 then 43 else 47
  }

  predicate IsLetter(b: byte) {
    65 <= b <= 90 || 97 <= b <= 122 || 48 <= b <= 57 || b == 43 || b == 47
  }

  function Worth(b: byte): sextet
    requires IsLetter(b)
  {
    if 65 <= b <= 90 then b - 65 else if 97 <= b <= 122 then b - 71 else if 48 <= b <= 57 then b + 4
    else if b == 43 then 62 else 63
  }

  lemma LetterWorth(n: sextet)
    ensures IsLetter(Letter(n)) && Worth(Letter(n)) == n && Letter(n) != PAD
  {
  }

  function Quad(a: byte, b: byte, c: byte): bytes {
    [Letter(a / 4), Letter(a % 4 * 16 + b / 16), Letter(b % 16 * 4 + c / 64), Letter(c % 64)]
  }

  /** `b64encode` */
  function Encode(b: bytes): (s: bytes)
    ensures |s| == (|b| + 2) / 3 * 4
  {
    if b == [] then []
    else if |b| == 1 then [Letter(b[0] / 4), Letter(b[0] % 4 * 16), PAD, PAD]
    else if |b| == 2 then [Letter(b[0] / 4), Letter(b[0] % 4 * 16 + b[1] / 16), Letter(b[1] % 16 * 4), PAD]
    else Quad(b[0], b[1], b[2]) + Encode(b[3..])
  }

  /** The bytes of a quad of letters; the low bits a padded quad does not use are not looked at. */
  function OneQuad(s: bytes, n: nat): (r: bytes)
    requires |s| == 4 && 1 <= n <= 3 && IsLetter(s[0]) && IsLetter(s[1])
    requires (n >= 2 ==> IsLetter(s[2])) && (n == 3 ==> IsLetter(s[3]))
    ensures |r| == n
  {
    var w, x := Worth(s[0]), Worth(s[1]);
    var a := w * 4 + x / 16;
    if n == 1 then [a] else
    var y := Worth(s[2]);
    var b := x % 16 * 16 + y / 4;
    if n == 2 then [a, b] else
    [a, b, y % 4 * 64 + Worth(s[3])]
  }

  /** `b64decode(validate=True)`: letters only, in fours, padding at the very end. */
  function Decode(s: bytes): Option<bytes> {
    if s == [] then Some([])
    else if |s| < 4 then None
    else if !IsLetter(s[0]) || !IsLetter(s[1]) then None
    else if |s| == 4 && s[2] == PAD && s[3] == PAD then Some(OneQuad(s, 1))
    else if !IsLetter(s[2]) then None
    else if |s| == 4 && s[3] == PAD then Some(OneQuad(s, 2))
    else if !IsLetter(s[3]) then None
    else match Decode(s[4..])
      case None => None
      case Some(rest) => Some(OneQuad(s[..4], 3) + rest)
  }

  lemma {:induction false} DecodeLength(s: bytes)
    requires Decode(s).Some?
    ensures 4 * |Decode(s).value| <= 3 * |s|
  {
    hide OneQuad, IsLetter;
    if |s| > 4 {
      DecodeLength(s[4..]);
    } else if s != [] {
      assert s[4..] == [];
    }
  }

  /** The bits of two bytes over three letters. */
  lemma Bits(a: byte, b: byte)
    ensures (a % 4 * 16 + b / 16) / 16 == a % 4 && (a % 4 * 16 + b / 16) % 16 == b / 16
    ensures b % 16 * 4 / 4 == b % 16 && b / 16 * 16 + b % 16 == b && a / 4 * 4 + a % 4 == a
  {
  }

  lemma QuadBack(a: byte, b: byte, c: byte)
    ensures var q := Quad(a, b, c);
            (forall i :: 0 <= i < 4 ==> IsLetter(q[i])) && OneQuad(q, 3) == [a, b, c]
  {
    hide Letter, IsLetter, Worth;
    var w, x, y, z := a / 4, a % 4 * 16 + b / 16, b % 16 * 4 + c / 64, c % 64;
    LetterWorth(w);
    LetterWorth(x);
    LetterWorth(y);
    LetterWorth(z);
    QuadValue(Quad(a, b, c), w, x, y, z);
    Bits(a, b);
    LowBits(b, c);
  }

  lemma QuadValue(q: bytes, w: sextet, x: sextet, y: sextet, z: sextet)
    requires |q| == 4 && (forall i :: 0 <= i < 4 ==> IsLetter(q[i]))
    requires Worth(q[0]) == w && Worth(q[1]) == x && Worth(q[2]) == y && Worth(q[3]) == z
    ensures OneQuad(q, 3) == [w * 4 + x / 16, x % 16 * 16 + y / 4, y % 4 * 64 + z]
  {
    hide Worth, IsLetter;
  }

  lemma LowBits(b: byte, c: byte)
    ensures (b % 16 * 4 + c / 64) / 4 == b % 16 && (b % 16 * 4 + c / 64) % 4 == c / 64 && c / 64 * 64 + c % 64 == c
  {
  }

  lemma OneBack(a: byte)
    ensures Decode(Encode([a])) == Some([a])
  {
    hide Letter, IsLetter, Worth;
    LetterWorth(a / 4);
    LetterWorth(a % 4 * 16);
  }

  lemma TwoBack(a: byte, b: byte)
    ensures Decode(Encode([a, b])) == Some([a, b])
  {
    hide Letter, IsLetter, Worth;
    LetterWorth(a / 4);
    LetterWorth(a % 4 * 16 + b / 16);
    LetterWorth(b % 16 * 4);
    Bits(a, b);
    var s := Encode([a, b]);
    assert s == [Letter(a / 4), Letter(a % 4 * 16 + b / 16), Letter(b % 16 * 4), PAD];
    assert OneQuad(s, 2) == [a, b];
  }

  lemma {:induction false} DecodeEncode(b: bytes)
    ensures Decode(Encode(b)) == Some(b)
  {
    if |b| == 1 {
      OneBack(b[0]);
      assert b == [b[0]];
    } else if |b| == 2 {
      TwoBack(b[0], b[1]);
      assert b == [b[0], b[1]];
    } else if |b| > 2 {
      hide Quad, OneQuad, IsLetter, Letter;
      QuadBack(b[0], b[1], b[2]);
      DecodeEncode(b[3..]);
      var q, tail := Quad(b[0], b[1], b[2]), Encode(b[3..]);
      FourLetters(q, tail);
      assert b == [b[0], b[1], b[2]] + b[3..];
    }
  }

  lemma FourLetters(q: bytes, tail: bytes)
    requires |q| == 4 && (forall i :: 0 <= i < 4 ==> IsLetter(q[i])) && Decode(tail).Some?
    ensures Decode(q + tail) == Some(OneQuad(q, 3) + Decode(tail).value)
  {
    hide OneQuad, Worth;
    assert (q + tail)[4..] == tail && (q + tail)[..4] == q;
    assert !IsLetter(PAD);
  }

  /** The examples of section 10 of RFC 4648, and the two letters they do not use. */
  lemma AsInTheStandard()
    ensures Encode([102]) == [90, 103, 61, 61] && Encode([102, 111]) == [90, 109, 56, 61]
    ensures Encode([102, 111, 111]) == [90, 109, 57, 118]
    ensures Encode([102, 111, 111, 98, 97, 114]) == [90, 109, 57, 118, 89, 109, 70, 121]
    ensures Encode([251, 255, 254]) == [43, 47, 47, 43]
  {
    var tail: bytes := [102, 111, 111, 98, 97, 114][3..];
    assert tail == [98, 97, 114];
    var rest: bytes := tail[3..];
    assert rest == [];
    var none: bytes := [102, 111, 111][3..];
    assert none == [];
    var nil: bytes := [251, 255, 254][3..];
    assert nil == [];
  }

  // ----- envelopes -----

  datatype EnvelopeError = NotAnEnvelope | ExceedsLimit | NotBase64 | NotCanonical

  /** What arrives where an envelope is expected: exactly one field "base64" holding a string, or not. */
  datatype Envelope = Text(encoded: bytes) | NotText | OtherShape

  predicate WithinPrecheck(encoded: bytes, limit: nat) {
    |encoded| <= 4 * ((limit + 2) / 3)
  }

  function DecodeBytes(e: Envelope, limit: nat): Result<bytes, EnvelopeError> {
    match e
    case OtherShape => Err(NotAnEnvelope)
    case NotText => Err(ExceedsLimit)
    case Text(encoded) =>
      if !WithinPrecheck(encoded, limit) then Err(ExceedsLimit)
      else match Decode(encoded)
        case None => Err(NotBase64)
        case Some(result) => if |result| > limit || Encode(result) != encoded then Err(NotCanonical) else Ok(result)
  }

  /** `decode_bytes` accepts exactly the encodings of the byte strings within the limit, and inverts
      `encode_bytes` on them. */
  lemma AcceptsExactly(encoded: bytes, limit: nat, b: bytes)
    ensures DecodeBytes(Text(encoded), limit) == Ok(b) <==> |b| <= limit && encoded == Encode(b)
  {
    hide Encode, Decode;
    DecodeEncode(b);
  }

  /** The length check before decoding turns away nothing that is within the limit, and lets at most two
      bytes too many through to be decoded. */
  lemma PrecheckIsSafe(encoded: bytes, limit: nat, b: bytes)
    ensures |b| <= limit ==> WithinPrecheck(Encode(b), limit)
    ensures WithinPrecheck(encoded, limit) && Decode(encoded).Some? ==> |Decode(encoded).value| <= limit + 2
  {
    hide Encode, Decode;
    if Decode(encoded).Some? {
      DecodeLength(encoded);
    }
  }

  /** Both bounds are met: two bytes over the limit do get decoded before they are turned away. */
  lemma PrecheckIsTight(b: bytes, limit: nat)
    requires limit % 3 == 1 && |b| == limit + 2
    ensures WithinPrecheck(Encode(b), limit) && DecodeBytes(Text(Encode(b)), limit) == Err(NotCanonical)
  {
    hide Encode, Decode;
    DecodeEncode(b);
    var k := limit / 3;
    assert limit == 3 * k + 1 && |b| == 3 * k + 3;
    assert (limit + 2) / 3 == k + 1 && (|b| + 2) / 3 == k + 1;
  }
}
