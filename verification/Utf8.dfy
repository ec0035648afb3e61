/** UTF-8 (RFC 3629): what `str::as_bytes` produces and what `String::from_utf8` accepts.
    A Dafny `char` is a Unicode scalar value, so a Dafny `string` is exactly a Rust `String`. */
module Utf8 {
  import opened Wrappers

  newtype byte = x: int | 0 <= x < 256

  function EncodeChar(c: char): (b: seq<byte>)
    ensures 1 <= |b| <= 4
  {
    var n := c as int;
    var n1 := n / 64;
    var n2 := n1 / 64;
    if n < 0x80 then [n as byte]
    else if n < 0x800 then [(0xC0 + n1) as byte, (0x80 + n % 64) as byte]
    else if n < 0x10000 then
      [(0xE0 + n2) as byte, (0x80 + n1 % 64) as byte, (0x80 + n % 64) as byte]
    else
      [(0xF0 + n2 / 64) as byte, (0x80 + n2 % 64) as byte,
       (0x80 + n1 % 64) as byte, (0x80 + n % 64) as byte]
  }

  function Encode(s: string): seq<byte> {
    if s == "" then [] else EncodeChar(s[0]) + Encode(s[1..])
  }

  predicate IsTail(b: byte) {
    0x80 <= b < 0xC0
  }

  predicate IsScalar(n: int) {
    0 <= n < 0xD800 || 0xE000 <= n < 0x110000
  }

  /** The code point spelled by a lead byte and the tails it calls for, overlong forms included. */
  function CodePoint(b: seq<byte>): (r: Option<(int, nat)>)
    requires |b| > 0
    ensures r.Some? ==> 1 <= r.value.1 <= |b|
  {
    if b[0] < 0x80 then Some((b[0] as int, 1))
    else if 0xC0 <= b[0] < 0xE0 && |b| >= 2 && IsTail(b[1]) then
      Some(((b[0] as int - 0xC0) * 64 + (b[1] as int - 0x80), 2))
    else if 0xE0 <= b[0] < 0xF0 && |b| >= 3 && IsTail(b[1]) && IsTail(b[2]) then
      Some(((b[0] as int - 0xE0) * 4096 + (b[1] as int - 0x80) * 64 + (b[2] as int - 0x80), 3))
    else if 0xF0 <= b[0] < 0xF8 && |b| >= 4 && IsTail(b[1]) && IsTail(b[2]) && IsTail(b[3]) then
      Some(((b[0] as int - 0xF0) * 262144 + (b[1] as int - 0x80) * 4096
            + (b[2] as int - 0x80) * 64 + (b[3] as int - 0x80), 4))
    else None
  }

  /** The shortest length in bytes for a code point; any longer spelling is refused. */
  function Width(n: int): nat {
    if n < 0x80 then 1 else if n < 0x800 then 2 else if n < 0x10000 then 3 else 4
  }

  /** Reads one character off the front, or refuses the bytes. */
  function DecodeChar(b: seq<byte>): (r: Option<(char, nat)>)
    requires |b| > 0
    ensures r.Some? ==> 1 <= r.value.1 <= |b|
  {
    match CodePoint(b)
    case None => None
    case Some((n, k)) => if IsScalar(n) && Width(n) == k then Some((n as char, k)) else None
  }

  function Decode(b: seq<byte>): Option<string> {
    if b == [] then Some("")
    else match DecodeChar(b)
      case None => None
      case Some((c, k)) =>
        match Decode(b[k..])
        case None => None
        case Some(rest) => Some([c] + rest)
  }

  lemma DecodeCharOfEncodeChar(c: char, rest: seq<byte>)
    ensures DecodeChar(EncodeChar(c) + rest) == Some((c, |EncodeChar(c)|))
  {
  }

  lemma Digit(h: int, z: int)
    requires 0 <= z < 64
    ensures (h * 64 + z) / 64 == h && (h * 64 + z) % 64 == z
  {
  }

  lemma EncodeCharOfDecodeChar(b: seq<byte>)
    requires |b| > 0 && DecodeChar(b).Some?
    ensures EncodeChar(DecodeChar(b).value.0) == b[..DecodeChar(b).value.1]
  {
    var (n, k) := CodePoint(b).value;
    if k == 2 {
      Digit(b[0] as int - 0xC0, b[1] as int - 0x80);
    } else if k == 3 {
      var n2 := b[0] as int - 0xE0;
      Digit(n2, b[1] as int - 0x80);
      Digit(n2 * 64 + b[1] as int - 0x80, b[2] as int - 0x80);
    } else if k == 4 {
      var n3 := b[0] as int - 0xF0;
      var n2 := n3 * 64 + b[1] as int - 0x80;
      Digit(n3, b[1] as int - 0x80);
      Digit(n2, b[2] as int - 0x80);
      Digit(n2 * 64 + b[2] as int - 0x80, b[3] as int - 0x80);
    }
  }

  /** Decoding undoes encoding. */
  lemma {:induction false} RoundTrip(s: string)
    ensures Decode(Encode(s)) == Some(s)
  {
    if s != "" {
      var head, tail := EncodeChar(s[0]), Encode(s[1..]);
      DecodeCharOfEncodeChar(s[0], tail);
      assert (head + tail)[|head|..] == tail;
      RoundTrip(s[1..]);
      assert s == [s[0]] + s[1..];
    }
  }

  lemma DecodeEncoded(b: seq<byte>, s: string)
    requires b == Encode(s)
    ensures Decode(b) == Some(s)
  {
    RoundTrip(s);
  }

  lemma EncodeCons(c: char, s: string)
    ensures Encode([c] + s) == EncodeChar(c) + Encode(s)
  {
  }

  /** Only the encoding of a string decodes to it: overlong and surrogate forms are refused. */
  lemma {:induction false} Canonical(b: seq<byte>)
    requires Decode(b).Some?
    ensures Encode(Decode(b).value) == b
  {
    if b != [] {
      var (c, k) := DecodeChar(b).value;
      Canonical(b[k..]);
      CanonicalStep(b, c, k, Decode(b[k..]).value);
    }
  }

  lemma CanonicalStep(b: seq<byte>, c: char, k: nat, rest: string)
    requires |b| > 0 && DecodeChar(b) == Some((c, k)) && Encode(rest) == b[k..]
    ensures Encode([c] + rest) == b
  {
    EncodeCharOfDecodeChar(b);
    EncodeCons(c, rest);
    assert b == b[..k] + b[k..];
  }

  lemma EncodeInjective(s: string, t: string)
    ensures Encode(s) == Encode(t) ==> s == t
  {
    RoundTrip(s);
    RoundTrip(t);
  }
}
