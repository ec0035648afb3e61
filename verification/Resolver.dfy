/** Choosing, among the rows Messages.app wrote after a send, the row of that send. */
module Resolver {
  import opened Wrappers
  import opened Utf8
  import opened Strings
  import opened Model
  import AttributedBody

  datatype ResolvedRow = ResolvedRow(rowid: int, guid: string, chatId: Option<string>)

  datatype ResolveAttempt = Unique(row: ResolvedRow) | Ambiguous(matches: nat) | Pending

  datatype CandidateRow = CandidateRow(rowid: int, guid: string, text: Option<string>,
                                       body: Option<seq<byte>>, handlesCsv: Option<string>,
                                       chatGuidsCsv: Option<string>)
  {
    function MessageText(): Option<string> {
      if text.Some? && text.value != "" then text
      else if body.Some? then AttributedBody.BodyText(body.value)
      else None
    }

    predicate HasHandle(handle: string) {
      handlesCsv.Some? && handle in Split(handlesCsv.value, ',')
    }

    predicate HasChatGuid(chatId: string) {
      chatGuidsCsv.Some? && chatId in Split(chatGuidsCsv.value, ',')
    }

    /** The nonempty pieces of the joined chat guids, as a set. */
    function ChatGuidSet(): set<string> {
      if chatGuidsCsv.None? then {}
      else set piece | piece in Split(chatGuidsCsv.value, ',') && piece != ""
    }

    function DistinctChatGuids(): seq<string> {
      if chatGuidsCsv.None? then [] else Dedup(Sort(NonEmpty(Split(chatGuidsCsv.value, ','))))
    }

    function ResolvedChatId(target: SendTarget): Option<string> {
      match target
      case Chat(chatId) => if HasChatGuid(chatId) then Some(chatId) else None
      case Handle(_) =>
        var guids := DistinctChatGuids();
        if |guids| == 1 then Some(guids[0]) else None
    }

    predicate MatchesTarget(target: SendTarget) {
      match target
      case Handle(to) => HasHandle(to)
      case Chat(chatId) => HasChatGuid(chatId)
    }

    predicate HasText(text: string) {
      MessageText() == Some(text)
    }

    function Resolved(target: SendTarget): ResolvedRow {
      ResolvedRow(rowid, guid, ResolvedChatId(target))
    }
  }

  function NonEmpty(pieces: seq<string>): (r: seq<string>)
    ensures Elements(r) == (set piece | piece in pieces && piece != "")
  {
    if pieces == [] then []
    else
      assert pieces == [pieces[0]] + pieces[1..];
      var rest := NonEmpty(pieces[1..]);
      assert Elements([pieces[0]] + rest) == {pieces[0]} + Elements(rest);
      if pieces[0] != "" then [pieces[0]] + rest else rest
  }

  /** `distinct_chat_guids`: sort a local vector, then drop adjacent duplicates in place. */
  method ComputeDistinctChatGuids(row: CandidateRow) returns (guids: seq<string>)
    ensures guids == row.DistinctChatGuids()
    ensures StrictlySorted(guids) && Elements(guids) == row.ChatGuidSet()
  {
    DistinctExactly(row);
    if row.chatGuidsCsv.None? {
      return [];
    }
    var sorted := Sort(NonEmpty(Split(row.chatGuidsCsv.value, ',')));
    guids := [];
    var i := |sorted|;
    while i > 0
      invariant 0 <= i <= |sorted|
      invariant guids == Dedup(sorted[i..])
      invariant i < |sorted| ==> guids != [] && guids[0] == sorted[i]
    {
      i := i - 1;
      assert sorted[i..][1..] == sorted[i + 1..];
      if guids == [] || guids[0] != sorted[i] {
        guids := [sorted[i]] + guids;
      }
    }
    assert sorted[0..] == sorted;
  }

  /** Sorting and dropping adjacent duplicates computes the set of chat guids, once each. */
  lemma DistinctExactly(row: CandidateRow)
    ensures StrictlySorted(row.DistinctChatGuids())
    ensures Elements(row.DistinctChatGuids()) == row.ChatGuidSet()
    ensures |row.DistinctChatGuids()| == |row.ChatGuidSet()|
  {
    var guids := row.DistinctChatGuids();
    if row.chatGuidsCsv.Some? {
      var pieces := NonEmpty(Split(row.chatGuidsCsv.value, ','));
      SortSorts(pieces);
      SameElements(Sort(pieces), pieces);
      DedupSorted(Sort(pieces));
    } else {
      assert Elements(guids) == {};
    }
    DistinctSize(guids);
  }

  lemma SameElements(xs: seq<string>, ys: seq<string>)
    requires multiset(xs) == multiset(ys)
    ensures Elements(xs) == Elements(ys)
  {
    forall x ensures x in Elements(xs) <==> x in Elements(ys) {
      assert x in xs <==> x in multiset(xs);
      assert x in ys <==> x in multiset(ys);
    }
  }

  /** For a handle target the chat id is set exactly when the row has one chat guid. */
  lemma HandleChatId(row: CandidateRow, to: string, chatId: string)
    ensures row.ResolvedChatId(Handle(to)) == Some(chatId) <==> row.ChatGuidSet() == {chatId}
  {
    DistinctExactly(row);
    var guids := row.DistinctChatGuids();
    if |guids| == 1 {
      assert guids == [guids[0]];
      assert Elements(guids) == {guids[0]};
    }
    if row.ChatGuidSet() == {chatId} {
      assert |guids| == 1;
    }
  }

  /** The three filters of the selection. */
  datatype Test = OnTarget | OnBoth | OnText

  predicate Passes(row: CandidateRow, test: Test, text: string, target: SendTarget) {
    (test.OnText? || row.MatchesTarget(target)) && (test.OnTarget? || row.HasText(text))
  }

  function Filter(rows: seq<CandidateRow>, test: Test, text: string, target: SendTarget): seq<CandidateRow> {
    if rows == [] then []
    else (if Passes(rows[0], test, text, target) then [rows[0]] else [])
         + Filter(rows[1..], test, text, target)
  }

  /** `select_candidate`. */
  function SelectCandidate(rows: seq<CandidateRow>, text: string, target: SendTarget, last: bool): ResolveAttempt {
    var onTarget := Filter(rows, OnTarget, text, target);
    var onBoth := Filter(rows, OnBoth, text, target);
    var onText := Filter(rows, OnText, text, target);
    if rows == [] then Pending
    else if |onTarget| == 1 then Unique(onTarget[0].Resolved(target))
    else if |onBoth| == 1 then Unique(onBoth[0].Resolved(target))
    else if |onBoth| > 1 then Ambiguous(|onBoth|)
    else if last && |rows| == 1 && |onText| == 1 then Unique(onText[0].Resolved(target))
    else if last && |onText| > 1 then Ambiguous(|onText|)
    else Pending
  }

  /** A filter keeps exactly the occurrences that pass, however the rows are ordered. */
  lemma {:induction false} FilterCounts(rows: seq<CandidateRow>, test: Test, text: string, target: SendTarget, x: CandidateRow)
    ensures multiset(Filter(rows, test, text, target))[x]
         == if Passes(x, test, text, target) then multiset(rows)[x] else 0
  {
    if rows != [] {
      FilterCounts(rows[1..], test, text, target, x);
      assert rows == [rows[0]] + rows[1..];
    }
  }

  lemma FilterPermutes(a: seq<CandidateRow>, b: seq<CandidateRow>, test: Test, text: string, target: SendTarget)
    requires multiset(a) == multiset(b)
    ensures multiset(Filter(a, test, text, target)) == multiset(Filter(b, test, text, target))
    ensures var f, g := Filter(a, test, text, target), Filter(b, test, text, target);
            |f| == |g| && (|f| == 1 ==> f == g)
  {
    var f, g := Filter(a, test, text, target), Filter(b, test, text, target);
    forall x ensures multiset(f)[x] == multiset(g)[x] {
      FilterCounts(a, test, text, target, x);
      FilterCounts(b, test, text, target, x);
    }
    assert multiset(f) == multiset(g);
    SameBag(f, g);
  }

  lemma SameBag<T>(f: seq<T>, g: seq<T>)
    requires multiset(f) == multiset(g)
    ensures |f| == |g| && (|f| == 1 ==> f == g)
  {
    assert |multiset(f)| == |multiset(g)|;
    if |f| == 1 {
      assert f[0] in multiset(g);
    }
  }

  /** The order in which chat.db returns the rows does not matter. */
  lemma SelectionPermutes(a: seq<CandidateRow>, b: seq<CandidateRow>, text: string, target: SendTarget, last: bool)
    requires multiset(a) == multiset(b)
    ensures SelectCandidate(a, text, target, last) == SelectCandidate(b, text, target, last)
  {
    FilterPermutes(a, b, OnTarget, text, target);
    FilterPermutes(a, b, OnBoth, text, target);
    FilterPermutes(a, b, OnText, text, target);
    assert |multiset(a)| == |multiset(b)|;
  }

  /** `x` is at one place in `rows` and is the only row that passes the test. */
  ghost predicate OnlyOne(rows: seq<CandidateRow>, test: Test, text: string, target: SendTarget, x: CandidateRow) {
    Passes(x, test, text, target) && multiset(rows)[x] == 1
    && forall y :: y in rows && Passes(y, test, text, target) ==> y == x
  }

  lemma FilterSingle(rows: seq<CandidateRow>, test: Test, text: string, target: SendTarget, x: CandidateRow)
    ensures OnlyOne(rows, test, text, target, x) <==> Filter(rows, test, text, target) == [x]
  {
    var f := Filter(rows, test, text, target);
    forall y ensures multiset(f)[y] == if Passes(y, test, text, target) then multiset(rows)[y] else 0 {
      FilterCounts(rows, test, text, target, y);
    }
    if f == [x] {
      assert multiset(f) == multiset{x};
      forall y | y in rows && Passes(y, test, text, target) ensures y == x {
        assert y in multiset(rows);
        assert multiset(f)[y] > 0;
      }
    }
    if OnlyOne(rows, test, text, target, x) {
      forall y ensures multiset(f)[y] == multiset{x}[y] {
        assert y in multiset(rows) ==> y in rows;
      }
      assert multiset(f) == multiset{x};
      assert |multiset(f)| == 1;
      assert f[0] in multiset(f);
    }
  }

  /** The row a selection may pick, without reference to filters or order:
      the only row on target; or, when several are on target, the only one that
      also has the text; or, on the last attempt, the only row there is, when it has
      the text although it is not on target. */
  ghost predicate Picks(rows: seq<CandidateRow>, text: string, target: SendTarget, last: bool, x: CandidateRow) {
    OnlyOne(rows, OnTarget, text, target, x)
    || OnlyOne(rows, OnBoth, text, target, x)
    || (last && rows == [x] && x.HasText(text) && !x.MatchesTarget(target))
  }

  lemma SelectedIsPicked(rows: seq<CandidateRow>, text: string, target: SendTarget, last: bool) returns (x: CandidateRow)
    requires SelectCandidate(rows, text, target, last).Unique?
    ensures Picks(rows, text, target, last, x)
    ensures SelectCandidate(rows, text, target, last).row == x.Resolved(target)
  {
    var onTarget := Filter(rows, OnTarget, text, target);
    var onBoth := Filter(rows, OnBoth, text, target);
    if |onTarget| == 1 {
      x := onTarget[0];
      FilterSingle(rows, OnTarget, text, target, x);
    } else if |onBoth| == 1 {
      x := onBoth[0];
      FilterSingle(rows, OnBoth, text, target, x);
    } else {
      x := rows[0];
      assert rows == [x];
      LastResort(x, text, target);
    }
  }

  /** The tests on a lone row. */
  lemma LastResort(x: CandidateRow, text: string, target: SendTarget)
    ensures |Filter([x], OnTarget, text, target)| == 1 <==> x.MatchesTarget(target)
    ensures |Filter([x], OnText, text, target)| == 1 <==> x.HasText(text)
    ensures x.HasText(text) ==> Filter([x], OnText, text, target) == [x]
  {
    SingleRow(x, text, target);
  }

  lemma SingleRow(x: CandidateRow, text: string, target: SendTarget)
    ensures forall test :: Filter([x], test, text, target) == if Passes(x, test, text, target) then [x] else []
  {
  }

  lemma PickedIsSelected(rows: seq<CandidateRow>, text: string, target: SendTarget, last: bool, x: CandidateRow)
    requires Picks(rows, text, target, last, x)
    ensures SelectCandidate(rows, text, target, last) == Unique(x.Resolved(target))
  {
    var onTarget := Filter(rows, OnTarget, text, target);
    FilterSingle(rows, OnTarget, text, target, x);
    FilterSingle(rows, OnBoth, text, target, x);
    if OnlyOne(rows, OnTarget, text, target, x) {
    } else if OnlyOne(rows, OnBoth, text, target, x) {
      assert x in multiset(rows);
      if |onTarget| == 1 {
        var y := onTarget[0];
        assert onTarget == [y];
        FilterSingle(rows, OnTarget, text, target, y);
        assert x in rows && Passes(x, OnTarget, text, target);
      }
    } else {
      SingleRow(x, text, target);
    }
  }

  /** `select_candidate` answers a row exactly when the declarative rule picks it. */
  lemma SelectionExactly(rows: seq<CandidateRow>, text: string, target: SendTarget, last: bool, r: ResolvedRow)
    ensures SelectCandidate(rows, text, target, last) == Unique(r)
      <==> exists x :: Picks(rows, text, target, last, x) && r == x.Resolved(target)
  {
    if SelectCandidate(rows, text, target, last) == Unique(r) {
      var x := SelectedIsPicked(rows, text, target, last);
    }
    forall x | Picks(rows, text, target, last, x)
      ensures SelectCandidate(rows, text, target, last) == Unique(x.Resolved(target))
    {
      PickedIsSelected(rows, text, target, last, x);
    }
  }

  /** The row answered is one of the rows given and on target, or the last resort: on the last
      attempt the only row there is, not on target but with equal text. */
  lemma OffTargetOnlyAsLastResort(rows: seq<CandidateRow>, text: string, target: SendTarget, last: bool, r: ResolvedRow)
    requires SelectCandidate(rows, text, target, last) == Unique(r)
    ensures || (exists x :: x in rows && x.MatchesTarget(target) && r == x.Resolved(target))
            || (last && |rows| == 1 && !rows[0].MatchesTarget(target) && rows[0].MessageText() == Some(text)
                && r == rows[0].Resolved(target))
  {
    var x := SelectedIsPicked(rows, text, target, last);
    assert x in multiset(rows) ==> x in rows;
  }

  /** Where in the answer of the query a test passes. */
  function Places(rows: seq<CandidateRow>, test: Test, text: string, target: SendTarget): set<nat> {
    set k | 0 <= k < |rows| && Passes(rows[k], test, text, target)
  }

  function Keep<T>(rows: seq<T>, p: T -> bool): seq<T> {
    if rows == [] then [] else (if p(rows[0]) then [rows[0]] else []) + Keep(rows[1..], p)
  }

  lemma {:induction false} KeepSplits<T>(a: seq<T>, b: seq<T>, p: T -> bool)
    ensures Keep(a + b, p) == Keep(a, p) + Keep(b, p)
  {
    if a == [] {
      assert a + b == b;
    } else {
      assert (a + b)[0] == a[0] && (a + b)[1..] == a[1..] + b;
      KeepSplits(a[1..], b, p);
      var kept := if p(a[0]) then [a[0]] else [];
      assert kept + (Keep(a[1..], p) + Keep(b, p)) == kept + Keep(a[1..], p) + Keep(b, p);
    }
  }

  function KeptPlaces<T>(rows: seq<T>, p: T -> bool): set<nat> {
    set k | 0 <= k < |rows| && p(rows[k])
  }

  lemma {:induction false} KeepCounts<T>(rows: seq<T>, p: T -> bool)
    ensures |Keep(rows, p)| == |KeptPlaces(rows, p)|
  {
    if rows == [] {
      assert KeptPlaces(rows, p) == {};
    } else {
      var n := |rows| - 1;
      var front := rows[..n];
      assert rows == front + [rows[n]];
      KeepSplits(front, [rows[n]], p);
      KeepCounts(front, p);
      assert KeptPlaces(rows, p) == KeptPlaces(front, p) + if p(rows[n]) then {n} else {};
    }
  }

  lemma {:induction false} FilterKeeps(rows: seq<CandidateRow>, test: Test, text: string, target: SendTarget,
                                       p: CandidateRow -> bool)
    requires forall row :: p(row) <==> Passes(row, test, text, target)
    ensures Filter(rows, test, text, target) == Keep(rows, p)
  {
    if rows != [] {
      assert p(rows[0]) <==> Passes(rows[0], test, text, target);
      FilterKeeps(rows[1..], test, text, target, p);
    }
  }

  /** A filter keeps one row for each place where its test passes. */
  lemma FilterCountsPlaces(rows: seq<CandidateRow>, test: Test, text: string, target: SendTarget)
    ensures |Filter(rows, test, text, target)| == |Places(rows, test, text, target)|
  {
    var p := row => Passes(row, test, text, target);
    FilterKeeps(rows, test, text, target, p);
    KeepCounts(rows, p);
    assert Places(rows, test, text, target) == KeptPlaces(rows, p);
  }

  /** Rows tie at `n` places: with target and text, or, when no row has both and this is the
      last attempt, with the text alone. */
  ghost predicate Tied(rows: seq<CandidateRow>, text: string, target: SendTarget, last: bool, n: nat) {
    n > 1
    && var both := |Places(rows, OnBoth, text, target)|;
       both == n || (both == 0 && last && |Places(rows, OnText, text, target)| == n)
  }

  ghost predicate NonePicked(rows: seq<CandidateRow>, text: string, target: SendTarget, last: bool) {
    forall x :: !Picks(rows, text, target, last, x)
  }

  lemma UniqueExactly(rows: seq<CandidateRow>, text: string, target: SendTarget, last: bool)
    ensures SelectCandidate(rows, text, target, last).Unique? <==> !NonePicked(rows, text, target, last)
  {
    if SelectCandidate(rows, text, target, last).Unique? {
      var x := SelectedIsPicked(rows, text, target, last);
    } else {
      forall x ensures !Picks(rows, text, target, last, x) {
        if Picks(rows, text, target, last, x) { PickedIsSelected(rows, text, target, last, x); }
      }
    }
  }

  /** An ambiguity is reported exactly when no row is picked and rows tie, with the number of
      places at which they do. */
  lemma AmbiguityExactly(rows: seq<CandidateRow>, text: string, target: SendTarget, last: bool, n: nat)
    ensures SelectCandidate(rows, text, target, last) == Ambiguous(n)
      <==> NonePicked(rows, text, target, last) && Tied(rows, text, target, last, n)
  {
    UniqueExactly(rows, text, target, last);
    FilterCountsPlaces(rows, OnBoth, text, target);
    FilterCountsPlaces(rows, OnText, text, target);
  }

  /** The resolver asks again exactly when no row is picked and none tie. */
  lemma PendingExactly(rows: seq<CandidateRow>, text: string, target: SendTarget, last: bool)
    ensures SelectCandidate(rows, text, target, last) == Pending
      <==> NonePicked(rows, text, target, last) && forall n :: !Tied(rows, text, target, last, n)
  {
    UniqueExactly(rows, text, target, last);
    forall n: nat ensures SelectCandidate(rows, text, target, last) == Ambiguous(n)
                     <==> NonePicked(rows, text, target, last) && Tied(rows, text, target, last, n)
    {
      AmbiguityExactly(rows, text, target, last, n);
    }
  }
}
