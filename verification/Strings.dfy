/** The string operations the repository takes from the Rust standard library. */
module Strings {
  import opened Wrappers

  /** The order of `str`: UTF-8 bytes compare as code points do. */
  predicate Le(a: string, b: string) {
    a == "" || (b != "" && (a[0] < b[0] || (a[0] == b[0] && Le(a[1..], b[1..]))))
  }

  /** The first place where the strings differ decides; a prefix comes first. */
  predicate FirstDiffersBelow(a: string, b: string, i: int) {
    0 <= i < |a| && i < |b| && a[..i] == b[..i] && a[i] < b[i]
  }

  lemma {:induction false} LeExactly(a: string, b: string)
    ensures Le(a, b) <==> a <= b || exists i :: FirstDiffersBelow(a, b, i)
  {
    if a != "" && b != "" && a[0] == b[0] {
      LeExactly(a[1..], b[1..]);
      assert a == [a[0]] + a[1..] && b == [b[0]] + b[1..];
      if exists i :: FirstDiffersBelow(a[1..], b[1..], i) {
        var i :| FirstDiffersBelow(a[1..], b[1..], i);
        assert a[..i + 1] == [a[0]] + a[1..][..i] && b[..i + 1] == [b[0]] + b[1..][..i];
        assert FirstDiffersBelow(a, b, i + 1);
      }
      if exists i :: FirstDiffersBelow(a, b, i) {
        var i :| FirstDiffersBelow(a, b, i);
        assert i > 0;
        assert a[..i][1..] == a[1..][..i - 1] && b[..i][1..] == b[1..][..i - 1];
        assert FirstDiffersBelow(a[1..], b[1..], i - 1);
      }
    } else if a != "" && b != "" {
      if a[0] < b[0] { assert FirstDiffersBelow(a, b, 0); }
      forall i ensures FirstDiffersBelow(a, b, i) ==> i == 0 {
        if 0 < i <= |a| && i <= |b| { assert a[..i][0] == a[0] && b[..i][0] == b[0]; }
      }
    }
  }

  lemma {:induction false} LeReflexive(a: string)
    ensures Le(a, a)
  {
    if a != "" { LeReflexive(a[1..]); }
  }

  lemma {:induction false} LeTotal(a: string, b: string)
    ensures Le(a, b) || Le(b, a)
  {
    if a != "" && b != "" && a[0] == b[0] { LeTotal(a[1..], b[1..]); }
  }

  lemma {:induction false} LeAntisymmetric(a: string, b: string)
    requires Le(a, b) && Le(b, a)
    ensures a == b
  {
    if a != "" {
      LeAntisymmetric(a[1..], b[1..]);
      assert a == [a[0]] + a[1..] && b == [b[0]] + b[1..];
    }
  }

  lemma {:induction false} LeTransitive(a: string, b: string, c: string)
    requires Le(a, b) && Le(b, c)
    ensures Le(a, c)
  {
    if a != "" && a[0] == b[0] == c[0] { LeTransitive(a[1..], b[1..], c[1..]); }
  }

  ghost predicate Sorted(xs: seq<string>) {
    forall i, j :: 0 <= i < j < |xs| ==> Le(xs[i], xs[j])
  }

  ghost predicate StrictlySorted(xs: seq<string>) {
    forall i, j :: 0 <= i < j < |xs| ==> Le(xs[i], xs[j]) && xs[i] != xs[j]
  }

  function Elements<T>(xs: seq<T>): set<T> {
    set x | x in xs
  }

  /** `s.split(c)`: always at least one piece. */
  function Split(s: string, c: char): (pieces: seq<string>)
    ensures |pieces| > 0
  {
    if s == "" then [""]
    else
      var rest := Split(s[1..], c);
      if s[0] == c then [""] + rest else [[s[0]] + rest[0]] + rest[1..]
  }

  predicate Contains(s: string, pattern: string) {
    |pattern| <= |s| && (s[..|pattern|] == pattern || (s != "" && Contains(s[1..], pattern)))
  }

  predicate StandsAt(s: string, pattern: string, i: int) {
    0 <= i <= |s| - |pattern| && s[i..i + |pattern|] == pattern
  }

  lemma {:induction false} ContainsExactly(s: string, pattern: string)
    ensures Contains(s, pattern) <==> exists i :: StandsAt(s, pattern, i)
  {
    if |pattern| <= |s| && s[..|pattern|] == pattern {
      assert StandsAt(s, pattern, 0);
    } else if s != "" {
      ContainsExactly(s[1..], pattern);
      forall i ensures StandsAt(s, pattern, i) <==> StandsAt(s[1..], pattern, i - 1) {
        if 0 < i <= |s| - |pattern| { assert s[1..][i - 1..i - 1 + |pattern|] == s[i..i + |pattern|]; }
        if i == 0 && |pattern| <= |s| { assert s[0..|pattern|] == s[..|pattern|]; }
      }
      if i :| StandsAt(s[1..], pattern, i) { assert StandsAt(s, pattern, i + 1); }
    }
  }

  /** Unicode White_Space. */
  predicate IsSpace(c: char) {
    var n := c as int;
    9 <= n <= 13 || n == 0x20 || n == 0x85 || n == 0xA0 || n == 0x1680 || 0x2000 <= n <= 0x200A
    || n == 0x2028 || n == 0x2029 || n == 0x202F || n == 0x205F || n == 0x3000
  }

  function TrimStart(s: string): (t: string)
    ensures t != "" ==> !IsSpace(t[0])
  {
    if s != "" && IsSpace(s[0]) then TrimStart(s[1..]) else s
  }

  function TrimEnd(s: string): string {
    if s != "" && IsSpace(s[|s| - 1]) then TrimEnd(s[..|s| - 1]) else s
  }

  function Trim(s: string): string {
    TrimEnd(TrimStart(s))
  }

  function LowerChar(c: char): char {
    if 'A' <= c <= 'Z' then (c as int + 32) as char else c
  }

  function Lower(s: string): (t: string)
    ensures |t| == |s|
  {
    if s == "" then "" else [LowerChar(s[0])] + Lower(s[1..])
  }

  function Insert(x: string, xs: seq<string>): (ys: seq<string>)
    ensures |ys| == |xs| + 1
  {
    if xs == [] || Le(x, xs[0]) then [x] + xs else [xs[0]] + Insert(x, xs[1..])
  }

  /** `sort_unstable` on strings: the order of equal strings cannot be observed. */
  function Sort(xs: seq<string>): seq<string> {
    if xs == [] then [] else Insert(xs[0], Sort(xs[1..]))
  }

  lemma {:induction false} InsertSorts(x: string, xs: seq<string>)
    requires Sorted(xs)
    ensures Sorted(Insert(x, xs)) && multiset(Insert(x, xs)) == multiset(xs) + multiset{x}
  {
    if xs == [] {
    } else if Le(x, xs[0]) {
      forall j | 0 <= j < |xs| ensures Le(x, xs[j]) {
        if j > 0 { LeTransitive(x, xs[0], xs[j]); }
      }
    } else {
      InsertSorts(x, xs[1..]);
      LeTotal(x, xs[0]);
      assert xs == [xs[0]] + xs[1..];
      var tail := Insert(x, xs[1..]);
      forall j | 0 <= j < |tail| ensures Le(xs[0], tail[j]) {
        assert tail[j] in multiset(tail);
        assert tail[j] == x || tail[j] in xs[1..];
      }
    }
  }

  lemma {:induction false} SortSorts(xs: seq<string>)
    ensures Sorted(Sort(xs)) && multiset(Sort(xs)) == multiset(xs)
  {
    if xs != [] {
      SortSorts(xs[1..]);
      InsertSorts(xs[0], Sort(xs[1..]));
      assert xs == [xs[0]] + xs[1..];
    }
  }

  /** `dedup`: drops each element equal to the one kept before it. */
  function Dedup(xs: seq<string>): seq<string> {
    if |xs| < 2 then xs
    else if xs[0] == xs[1] then Dedup(xs[1..])
    else [xs[0]] + Dedup(xs[1..])
  }

  lemma {:induction false} DedupSorted(xs: seq<string>)
    requires Sorted(xs)
    ensures StrictlySorted(Dedup(xs)) && Elements(Dedup(xs)) == Elements(xs)
    ensures xs != [] ==> Dedup(xs) != [] && Dedup(xs)[0] == xs[0]
  {
    if |xs| >= 2 {
      DedupSorted(xs[1..]);
      var tail := Dedup(xs[1..]);
      assert xs == [xs[0]] + xs[1..];
      assert Elements(xs) == {xs[0]} + Elements(xs[1..]);
      if xs[0] != xs[1] {
        forall j | 0 <= j < |tail| ensures Le(xs[0], tail[j]) && xs[0] != tail[j] {
          assert tail[j] in Elements(tail);
          var k :| 0 <= k < |xs[1..]| && xs[1..][k] == tail[j];
          assert Le(xs[0], xs[k + 1]);
          if xs[0] == tail[j] {
            if k > 0 { assert Le(xs[1], xs[k + 1]); }
            LeReflexive(xs[1]);
            LeAntisymmetric(xs[0], xs[1]);
          }
        }
        assert Dedup(xs) == [xs[0]] + tail;
        assert Elements(Dedup(xs)) == {xs[0]} + Elements(tail);
      }
    }
  }

  lemma {:induction false} DistinctSize(xs: seq<string>)
    requires StrictlySorted(xs)
    ensures |Elements(xs)| == |xs|
  {
    if xs == [] {
      assert Elements(xs) == {};
    } else {
      DistinctSize(xs[1..]);
      assert xs == [xs[0]] + xs[1..];
      assert Elements(xs) == {xs[0]} + Elements(xs[1..]);
      assert xs[0] !in Elements(xs[1..]);
    }
  }
}
