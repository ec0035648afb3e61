/** The request fingerprint behind the idempotency check. */
module Fingerprint {
  import opened Utf8
  import opened Model

  /** SHA-256 rendered in hexadecimal, as an arbitrary function of the hashed bytes. */
  type Digest = seq<byte> -> string

  const U64: nat := 0x1_0000_0000_0000_0000

  /** The last `n` big-endian bytes of a length. */
  function BigEndian(len: nat, n: nat): (b: seq<byte>)
    ensures |b| == n
  {
    if n == 0 then [] else BigEndian(len / 256, n - 1) + [(len % 256) as byte]
  }

  /** `(value.len() as u64).to_be_bytes()` followed by the bytes of the value. */
  function Framed(value: seq<byte>): seq<byte> {
    BigEndian(|value| % U64, 8) + value
  }

  function Fields(job: SendJob): seq<seq<byte>> {
    [Encode(KindText(job.target.Kind())), Encode(job.target.StoreKey()), Encode(job.protocol), Encode(job.text)]
  }

  function Concat(parts: seq<seq<byte>>): seq<byte> {
    if parts == [] then [] else Framed(parts[0]) + Concat(parts[1..])
  }

  /** Everything that is fed to the hasher, in order. */
  function Preimage(job: SendJob): seq<byte> {
    Concat(Fields(job))
  }

  function RequestFingerprint(sha: Digest, job: SendJob): string {
    sha(Preimage(job))
  }

  /** The hasher is fed one framed field at a time. */
  method Feed(fields: seq<seq<byte>>) returns (fed: seq<byte>)
    ensures fed == Concat(fields)
  {
    fed := [];
    assert fields[0..] == fields;
    for i := 0 to |fields|
      invariant fed + Concat(fields[i..]) == Concat(fields)
    {
      var rest := Concat(fields[i + 1..]);
      assert fields[i..][1..] == fields[i + 1..];
      FeedStep(fed, Framed(fields[i]), rest);
      fed := fed + Framed(fields[i]);
    }
    assert fields[|fields|..] == [] && fed + [] == fed;
  }

  lemma FeedStep(a: seq<byte>, b: seq<byte>, c: seq<byte>)
    ensures (a + b) + c == a + (b + c)
  {
  }

  /** `request_fingerprint`. */
  method ComputeFingerprint(sha: Digest, job: SendJob) returns (hex: string)
    ensures hex == RequestFingerprint(sha, job)
  {
    var fed := Feed(Fields(job));
    hex := sha(fed);
  }

  lemma {:induction false} BigEndianInjective(x: nat, y: nat, n: nat)
    requires BigEndian(x, n) == BigEndian(y, n) && x < Pow256(n) && y < Pow256(n)
    ensures x == y
  {
    if n > 0 {
      var a, b := BigEndian(x, n), BigEndian(y, n);
      assert a[..n - 1] == BigEndian(x / 256, n - 1) && b[..n - 1] == BigEndian(y / 256, n - 1);
      assert a[n - 1] == (x % 256) as byte && b[n - 1] == (y % 256) as byte;
      BigEndianInjective(x / 256, y / 256, n - 1);
    }
  }

  function Pow256(n: nat): nat {
    if n == 0 then 1 else 256 * Pow256(n - 1)
  }

  lemma U64IsEightBytes()
    ensures U64 == Pow256(8)
  {
  }

  lemma FrameSplits(v: seq<byte>, rest: seq<byte>)
    requires |v| < U64
    ensures var w := Framed(v) + rest;
            |w| >= 8 && w[..8] == BigEndian(|v|, 8) && w[8..] == v + rest
  {
    assert |v| % U64 == |v|;
  }

  /** A frame can be cut off the front in one way only. */
  lemma FrameCancels(v: seq<byte>, rest: seq<byte>, v': seq<byte>, rest': seq<byte>)
    requires |v| < U64 && |v'| < U64
    requires Framed(v) + rest == Framed(v') + rest'
    ensures v == v' && rest == rest'
  {
    FrameSplits(v, rest);
    FrameSplits(v', rest');
    U64IsEightBytes();
    BigEndianInjective(|v|, |v'|, 8);
    SplitAt(v, rest, v', rest');
  }

  lemma SplitAt(v: seq<byte>, rest: seq<byte>, v': seq<byte>, rest': seq<byte>)
    requires |v| == |v'| && v + rest == v' + rest'
    ensures v == v' && rest == rest'
  {
    assert (v + rest)[..|v|] == v && (v' + rest')[..|v|] == v';
    assert (v + rest)[|v|..] == rest && (v' + rest')[|v|..] == rest';
  }

  lemma {:induction false} ConcatInjective(a: seq<seq<byte>>, b: seq<seq<byte>>)
    requires |a| == |b| && Concat(a) == Concat(b)
    requires forall i :: 0 <= i < |a| ==> |a[i]| < U64 && |b[i]| < U64
    ensures a == b
  {
    if a != [] {
      FrameCancels(a[0], Concat(a[1..]), b[0], Concat(b[1..]));
      ConcatInjective(a[1..], b[1..]);
      assert a == [a[0]] + a[1..] && b == [b[0]] + b[1..];
    }
  }

  /** Every field is shorter than 2^64 bytes, as any value in memory is. */
  predicate Addressable(job: SendJob) {
    forall i :: 0 <= i < |Fields(job)| ==> |Fields(job)[i]| < U64
  }

  predicate SameRequest(a: SendJob, b: SendJob) {
    a.target == b.target && a.protocol == b.protocol && a.text == b.text
  }

  /** The hashed bytes agree exactly when kind, target, protocol and text all agree. */
  lemma PreimageExactly(a: SendJob, b: SendJob)
    requires Addressable(a) && Addressable(b)
    ensures Preimage(a) == Preimage(b) <==> SameRequest(a, b)
  {
    if Preimage(a) == Preimage(b) {
      var fa, fb := Fields(a), Fields(b);
      ConcatInjective(fa, fb);
      assert fa[0] == fb[0] && fa[1] == fb[1] && fa[2] == fb[2] && fa[3] == fb[3];
      EncodeInjective(KindText(a.target.Kind()), KindText(b.target.Kind()));
      EncodeInjective(a.target.StoreKey(), b.target.StoreKey());
      EncodeInjective(a.protocol, b.protocol);
      EncodeInjective(a.text, b.text);
      KindsDiffer();
    }
  }

  lemma KindsDiffer()
    ensures "handle" != "chat"
  {
  }

  /** No collision of the digest on the two requests at hand. */
  ghost predicate Collides(sha: Digest, a: SendJob, b: SendJob) {
    Preimage(a) != Preimage(b) && sha(Preimage(a)) == sha(Preimage(b))
  }

  /** So, short of a collision, fingerprints identify requests. */
  lemma FingerprintExactly(sha: Digest, a: SendJob, b: SendJob)
    requires Addressable(a) && Addressable(b) && !Collides(sha, a, b)
    ensures RequestFingerprint(sha, a) == RequestFingerprint(sha, b) <==> SameRequest(a, b)
  {
    PreimageExactly(a, b);
  }

  /** The number that bytes stand for, the most significant first. */
  function Number(b: seq<byte>): nat {
    if b == [] then 0 else Number(b[..|b| - 1]) * 256 + b[|b| - 1] as nat
  }

  lemma {:induction false} LengthBytes(len: nat, n: nat)
    requires len < Pow256(n)
    ensures Number(BigEndian(len, n)) == len
  {
    if n > 0 {
      LengthBytes(len / 256, n - 1);
      assert BigEndian(len, n)[..n - 1] == BigEndian(len / 256, n - 1);
    }
  }

  /** Eight bytes for the length of a value. */
  predicate IsLength(b: seq<byte>, value: seq<byte>) {
    |b| == 8 && Number(b) == |value|
  }

  lemma FrameOf(value: seq<byte>) returns (length: seq<byte>)
    requires |value| < U64
    ensures IsLength(length, value) && Framed(value) == length + value
  {
    length := BigEndian(|value|, 8);
    U64IsEightBytes();
    LengthBytes(|value|, 8);
    assert |value| % U64 == |value|;
  }

  /** The bytes hashed: the kind word, the address, the protocol and the text, in this order and in
      UTF-8, each behind its length in eight bytes. */
  lemma PreimageLayout(job: SendJob, kind: seq<byte>, key: seq<byte>, protocol: seq<byte>, text: seq<byte>)
    returns (a: seq<byte>, b: seq<byte>, c: seq<byte>, d: seq<byte>)
    requires |kind| < U64 && |key| < U64 && |protocol| < U64 && |text| < U64
    requires match job.target
             case Handle(to) => kind == Encode("handle") && key == Encode(to)
             case Chat(id) => kind == Encode("chat") && key == Encode(id)
    requires protocol == Encode(job.protocol) && text == Encode(job.text)
    ensures IsLength(a, kind) && IsLength(b, key) && IsLength(c, protocol) && IsLength(d, text)
    ensures Preimage(job) == (a + kind) + ((b + key) + ((c + protocol) + (d + text)))
  {
    a := FrameOf(kind);
    b := FrameOf(key);
    c := FrameOf(protocol);
    d := FrameOf(text);
    assert Fields(job) == [kind, key, protocol, text];
    ConcatFour(kind, key, protocol, text);
  }

  lemma ConcatFour(a: seq<byte>, b: seq<byte>, c: seq<byte>, d: seq<byte>)
    ensures Concat([a, b, c, d]) == Framed(a) + (Framed(b) + (Framed(c) + Framed(d)))
  {
    assert [a, b, c, d][1..] == [b, c, d] && [b, c, d][1..] == [c, d] && [c, d][1..] == [d] && [d][1..] == [];
    assert Concat([d]) == Framed(d) + [] == Framed(d);
    assert Concat([c, d]) == Framed(c) + Concat([d]);
    assert Concat([b, c, d]) == Framed(b) + Concat([c, d]);
  }
}
