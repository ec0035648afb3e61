/** Text extraction from a typedstream `NSAttributedString` blob. */
module AttributedBody {
  import opened Wrappers
  import opened Utf8

  /** The ASCII bytes of "NSString". */
  const MARKER: seq<byte> := [0x4E, 0x53, 0x53, 0x74, 0x72, 0x69, 0x6E, 0x67]
  const SHORT: byte := 0x2B
  const LONG: byte := 0x81
  const REACH: nat := 16

  predicate MarkerAt(blob: seq<byte>, i: int) {
    0 <= i <= |blob| - |MARKER| && blob[i..i + |MARKER|] == MARKER
  }

  predicate NoMarker(blob: seq<byte>) {
    forall i :: 0 <= i < |blob| ==> !MarkerAt(blob, i)
  }

  ghost predicate FirstMarker(blob: seq<byte>, i: nat) {
    MarkerAt(blob, i) && forall j :: 0 <= j < i ==> !MarkerAt(blob, j)
  }

  /** `windows(..).position(..)` from index `from` on. */
  function MarkerFrom(blob: seq<byte>, from: nat): (found: Option<nat>)
    ensures found.None? ==> forall j :: from <= j < |blob| ==> !MarkerAt(blob, j)
    ensures found.Some? ==> from <= found.value && MarkerAt(blob, found.value)
                            && forall j :: from <= j < found.value ==> !MarkerAt(blob, j)
    decreases |blob| - from
  {
    if from >= |blob| then None
    else if MarkerAt(blob, from) then Some(from)
    else MarkerFrom(blob, from + 1)
  }

  /** `rest.get(from..from + len)` followed by `String::from_utf8`. */
  function TextAt(rest: seq<byte>, from: nat, len: nat): Option<string> {
    if from + len <= |rest| then Decode(rest[from..from + len]) else None
  }

  /** The two readings of a two-byte length, the larger first. */
  function Lengths(first: byte, second: byte): (nat, nat) {
    var be, le := first as int * 256 + second as int, second as int * 256 + first as int;
    if be >= le then (be, le) else (le, be)
  }

  /** What the token loop does at one index: return text, return nothing, or go on. */
  datatype Token = Text(text: string) | Stop | Skip

  function TokenAt(rest: seq<byte>, i: nat): Token
    requires i < |rest|
  {
    if rest[i] == SHORT then
      if i + 1 >= |rest| then Stop
      else match TextAt(rest, i + 2, rest[i + 1] as nat)
        case Some(text) => Text(text)
        case None => Stop
    else if rest[i] == LONG then
      if i + 2 >= |rest| then Stop
      else LongTokenAt(rest, i + 3, Lengths(rest[i + 1], rest[i + 2]))
    else Skip
  }

  function LongTokenAt(rest: seq<byte>, from: nat, lengths: (nat, nat)): Token {
    match TextAt(rest, from, lengths.0)
    case Some(text) => Text(text)
    case None =>
      match TextAt(rest, from, lengths.1)
      case Some(text) => Text(text)
      case None => Skip
  }

  /** What the token loop returns when it stands at index `i`. */
  function ReadFrom(rest: seq<byte>, i: nat): Option<string>
    decreases REACH - i
  {
    if i >= REACH || i >= |rest| then None
    else match TokenAt(rest, i)
      case Text(text) => Some(text)
      case Stop => None
      case Skip => ReadFrom(rest, i + 1)
  }

  /** The first reading of a two-byte length, larger first, that selects UTF-8 text. */
  method ReadLong(rest: seq<byte>, from: nat, more: nat, fewer: nat) returns (r: Option<string>)
    ensures LongTokenAt(rest, from, (more, fewer)) == if r.Some? then Text(r.value) else Skip
  {
    var lengths := [more, fewer];
    for k := 0 to 2
      invariant k > 0 ==> TextAt(rest, from, more) == None
      invariant k > 1 ==> TextAt(rest, from, fewer) == None
    {
      if from + lengths[k] <= |rest| {
        var text := Decode(rest[from..from + lengths[k]]);
        if text.Some? {
          return text;
        }
      }
    }
    return None;
  }

  method ReadTokens(rest: seq<byte>) returns (r: Option<string>)
    ensures r == ReadFrom(rest, 0)
  {
    for i := 0 to if |rest| < REACH then |rest| else REACH
      invariant ReadFrom(rest, 0) == ReadFrom(rest, i)
    {
      if rest[i] == SHORT {
        if i + 1 >= |rest| {
          return None;
        }
        r := TextAt(rest, i + 2, rest[i + 1] as nat);
        return;
      } else if rest[i] == LONG {
        if i + 2 >= |rest| {
          return None;
        }
        var (more, fewer) := Lengths(rest[i + 1], rest[i + 2]);
        r := ReadLong(rest, i + 3, more, fewer);
        if r.Some? {
          return;
        }
      }
    }
    return None;
  }

  /** `decode_attributed_body`. */
  method DecodeAttributedBody(blob: seq<byte>) returns (r: Option<string>)
    ensures r == BodyText(blob)
  {
    for i := 0 to |blob|
      invariant MarkerFrom(blob, 0) == MarkerFrom(blob, i)
    {
      if MarkerAt(blob, i) {
        r := ReadTokens(blob[i + |MARKER|..]);
        return;
      }
    }
    return None;
  }

  /** `decode_attributed_body` as a value: `DecodeAttributedBody` computes it. */
  function BodyText(blob: seq<byte>): Option<string> {
    match MarkerFrom(blob, 0)
    case None => None
    case Some(i) => ReadFrom(blob[i + |MARKER|..], 0)
  }

  /** The marker does not overlap itself, so appending it to a marker-free prefix
      makes its first occurrence start right after the prefix. */
  lemma MarkerAfterPrefix(prefix: seq<byte>, rest: seq<byte>)
    requires NoMarker(prefix)
    ensures FirstMarker(prefix + MARKER + rest, |prefix|)
  {
    var blob := prefix + MARKER + rest;
    assert blob[|prefix|..|prefix| + |MARKER|] == MARKER;
    forall j | 0 <= j < |prefix| ensures !MarkerAt(blob, j) {
      if j + |MARKER| <= |prefix| {
        assert blob[j..j + |MARKER|] == prefix[j..j + |MARKER|];
        assert !MarkerAt(prefix, j);
      } else if j + |MARKER| <= |blob| {
        NoBorder(blob[j..j + |MARKER|], |prefix| - j);
      }
    }
  }

  lemma NoBorder(word: seq<byte>, k: nat)
    requires |word| == |MARKER| && 0 < k < |MARKER| && word[k] == MARKER[0]
    ensures word != MARKER
  {
  }

  predicate Inert(gap: seq<byte>) {
    forall k :: 0 <= k < |gap| ==> gap[k] != SHORT && gap[k] != LONG
  }

  lemma {:induction false} SkipGap(rest: seq<byte>, i: nat, n: nat)
    requires i <= n < |rest| && n < REACH
    requires forall k :: i <= k < n ==> rest[k] != SHORT && rest[k] != LONG
    ensures ReadFrom(rest, i) == ReadFrom(rest, n)
    decreases n - i
  {
    if i < n {
      SkipGap(rest, i + 1, n);
    }
  }

  lemma SkipWholeGap(gap: seq<byte>, tail: seq<byte>)
    requires Inert(gap) && |gap| < REACH && |tail| > 0
    ensures ReadFrom(gap + tail, 0) == ReadFrom(gap + tail, |gap|)
  {
    SkipGap(gap + tail, 0, |gap|);
  }

  lemma MarkerFound(prefix: seq<byte>, rest: seq<byte>)
    requires NoMarker(prefix)
    ensures var blob := prefix + MARKER + rest;
            MarkerFrom(blob, 0) == Some(|prefix|) && blob[|prefix| + |MARKER|..] == rest
  {
    var blob := prefix + MARKER + rest;
    MarkerAfterPrefix(prefix, rest);
    assert MarkerAt(blob, |prefix|);
    assert MarkerFrom(blob, 0).Some?;
  }

  /** Decoding a blob laid out as prefix, marker, gap, token reads at the token. */
  lemma ReadAtToken(prefix: seq<byte>, gap: seq<byte>, tail: seq<byte>)
    requires NoMarker(prefix) && Inert(gap) && |gap| < REACH && |tail| > 0
    ensures BodyText(prefix + MARKER + (gap + tail)) == ReadFrom(gap + tail, |gap|)
  {
    MarkerFound(prefix, gap + tail);
    SkipWholeGap(gap, tail);
  }

  function ShortToken(run: seq<byte>, trailing: seq<byte>): (t: seq<byte>)
    requires |run| < 256
    ensures |t| == 2 + |run| + |trailing| && t[0] == SHORT && t[1] as nat == |run|
    ensures t[2..2 + |run|] == run
  {
    [SHORT, |run| as byte] + run + trailing
  }

  lemma TextThere(rest: seq<byte>, from: nat, text: string)
    requires from <= |rest| && Encode(text) <= rest[from..]
    ensures TextAt(rest, from, |Encode(text)|) == Some(text)
  {
    var run := rest[from..from + |Encode(text)|];
    assert run == Encode(text) by {
      assert run == rest[from..][..|Encode(text)|];
    }
    DecodeEncoded(run, text);
  }

  lemma ShortAfterGap(gap: seq<byte>, text: string, trailing: seq<byte>)
    requires |gap| < REACH && |Encode(text)| < 256
    ensures ReadFrom(gap + ShortToken(Encode(text), trailing), |gap|) == Some(text)
  {
    var token := ShortToken(Encode(text), trailing);
    var rest := gap + token;
    assert rest[|gap| + 2..] == token[2..];
    assert Encode(text) <= token[2..] by {
      assert token[2..][..|Encode(text)|] == token[2..2 + |Encode(text)|];
    }
    TextThere(rest, |gap| + 2, text);
    assert rest[|gap|] == token[0] && rest[|gap| + 1] == token[1];
  }

  /** A one-byte length: the text comes back whatever follows it. */
  lemma ShortRoundTrip(prefix: seq<byte>, gap: seq<byte>, text: string, trailing: seq<byte>)
    requires NoMarker(prefix) && Inert(gap) && |gap| < REACH
    requires |Encode(text)| < 256
    ensures BodyText(prefix + MARKER + (gap + ShortToken(Encode(text), trailing))) == Some(text)
  {
    ReadAtToken(prefix, gap, ShortToken(Encode(text), trailing));
    ShortAfterGap(gap, text, trailing);
  }

  predicate LengthBytes(first: byte, second: byte, n: nat) {
    n == first as nat * 256 + second as nat || n == second as nat * 256 + first as nat
  }

  lemma LongAt(rest: seq<byte>, i: nat, text: string, more: nat, fewer: nat)
    requires i < REACH && i + 3 <= |rest| && rest[i] == LONG
    requires Lengths(rest[i + 1], rest[i + 2]) == (more, fewer)
    requires |Encode(text)| == more || |Encode(text)| == fewer
    requires Encode(text) <= rest[i + 3..]
    ensures ReadFrom(rest, i) == Some(text)
      <==> !(|Encode(text)| < more && TextAt(rest, i + 3, more).Some?)
  {
    var n := |Encode(text)|;
    TextThere(rest, i + 3, text);
    if n < more && TextAt(rest, i + 3, more).Some? {
      TextInBounds(rest, i + 3, more);
    }
  }

  function LongToken(first: byte, second: byte, run: seq<byte>): (t: seq<byte>)
    ensures |t| == 3 + |run| && t[0] == LONG && t[1] == first && t[2] == second && t[3..] == run
  {
    [LONG, first, second] + run
  }

  lemma LongAfterGap(gap: seq<byte>, first: byte, second: byte, text: string, trailing: seq<byte>)
    requires |gap| < REACH && LengthBytes(first, second, |Encode(text)|)
    ensures var run := Encode(text) + trailing;
            var (more, _) := Lengths(first, second);
            ReadFrom(gap + LongToken(first, second, run), |gap|) == Some(text)
            <==> !(|Encode(text)| < more <= |run| && Decode(run[..more]).Some?)
  {
    var run := Encode(text) + trailing;
    var token := LongToken(first, second, run);
    var rest := gap + token;
    var (more, fewer) := Lengths(first, second);
    assert forall k :: 0 <= k < |token| ==> rest[|gap| + k] == token[k];
    assert rest[|gap| + 3..] == run;
    LongAt(rest, |gap|, text, more, fewer);
    if more <= |run| {
      assert rest[|gap| + 3..|gap| + 3 + more] == run[..more];
    }
  }

  /** A two-byte length in either byte order: the text comes back exactly when the
      other reading of the length does not select a longer run of valid UTF-8. */
  lemma LongRoundTripExactly(prefix: seq<byte>, gap: seq<byte>, first: byte, second: byte,
                             text: string, trailing: seq<byte>)
    requires NoMarker(prefix) && Inert(gap) && |gap| < REACH
    requires LengthBytes(first, second, |Encode(text)|)
    ensures var run := Encode(text) + trailing;
            var (more, _) := Lengths(first, second);
            BodyText(prefix + MARKER + (gap + LongToken(first, second, run))) == Some(text)
            <==> !(|Encode(text)| < more <= |run| && Decode(run[..more]).Some?)
  {
    ReadAtToken(prefix, gap, LongToken(first, second, Encode(text) + trailing));
    LongAfterGap(gap, first, second, text, trailing);
  }

  /** In particular when the text ends the blob. */
  lemma LongRoundTrip(prefix: seq<byte>, gap: seq<byte>, first: byte, second: byte, text: string)
    requires NoMarker(prefix) && Inert(gap) && |gap| < REACH
    requires LengthBytes(first, second, |Encode(text)|)
    ensures BodyText(prefix + MARKER + (gap + LongToken(first, second, Encode(text)))) == Some(text)
  {
    LongRoundTripExactly(prefix, gap, first, second, text, []);
    assert Encode(text) + [] == Encode(text);
  }

  /** Trailing bytes can defeat a two-byte length: here "A" is read as 256 bytes. */
  lemma LongWithTrailingFails()
    ensures var trailing := seq(255, _ => 0x41 as byte);
            LengthBytes(0, 1, |Encode("A")|)
            && BodyText([] + MARKER + ([] + LongToken(0, 1, Encode("A") + trailing))) != Some("A")
  {
    var trailing := seq(255, _ => 0x41 as byte);
    var run := Encode("A") + trailing;
    assert Encode("A") == [0x41];
    LongRoundTripExactly([], [], 0, 1, "A", trailing);
    AsciiDecodes(run[..256]);
  }

  lemma {:induction false} AsciiDecodes(b: seq<byte>)
    requires forall i :: 0 <= i < |b| ==> b[i] == 0x41
    ensures Decode(b).Some?
  {
    if b != [] {
      assert DecodeChar(b) == Some((0x41 as char, 1));
      AsciiDecodes(b[1..]);
    }
  }

  lemma TextInBounds(rest: seq<byte>, from: nat, len: nat)
    requires TextAt(rest, from, len).Some?
    ensures from + len <= |rest| && Encode(TextAt(rest, from, len).value) == rest[from..from + len]
  {
    Canonical(rest[from..from + len]);
  }

  lemma TokenInBounds(rest: seq<byte>, i: nat) returns (lo: nat, hi: nat)
    requires i < |rest| && TokenAt(rest, i).Text?
    ensures lo <= hi <= |rest| && Encode(TokenAt(rest, i).text) == rest[lo..hi]
  {
    if rest[i] == SHORT {
      lo, hi := i + 2, i + 2 + rest[i + 1] as nat;
    } else {
      var (more, fewer) := Lengths(rest[i + 1], rest[i + 2]);
      lo := i + 3;
      hi := lo + if TextAt(rest, lo, more).Some? then more else fewer;
    }
    TextInBounds(rest, lo, hi - lo);
  }

  lemma {:induction false} ReadInBounds(rest: seq<byte>, i: nat) returns (lo: nat, hi: nat)
    requires ReadFrom(rest, i).Some?
    ensures lo <= hi <= |rest| && Encode(ReadFrom(rest, i).value) == rest[lo..hi]
    decreases REACH - i
  {
    if TokenAt(rest, i).Text? {
      lo, hi := TokenInBounds(rest, i);
    } else {
      lo, hi := ReadInBounds(rest, i + 1);
    }
  }

  /** Every decoded text is a slice of the blob that starts after the first marker. */
  lemma DecodedIsSlice(blob: seq<byte>)
    requires BodyText(blob).Some?
    ensures exists i: nat, lo: nat, hi: nat :: FirstMarker(blob, i) && i + |MARKER| <= lo <= hi <= |blob|
              && Encode(BodyText(blob).value) == blob[lo..hi]
  {
    var i := MarkerFrom(blob, 0).value;
    assert FirstMarker(blob, i);
    var rest := blob[i + |MARKER|..];
    var lo, hi := ReadInBounds(rest, 0);
    var base := i + |MARKER|;
    assert rest[lo..hi] == blob[base + lo..base + hi];
  }
}
