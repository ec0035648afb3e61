/** Reading the journal page by page while it grows. */
module Paging {
  import opened Wrappers
  import opened Model
  import opened Journal

  const I64_LIMIT: nat := 0x8000_0000_0000_0000
  const U64_LIMIT: nat := 0x1_0000_0000_0000_0000

  type Entries = seq<JournaledEvent>

  /** The entries after a cursor. */
  function After(entries: Entries, since: int): Entries {
    if entries == [] then []
    else
      var last := entries[|entries| - 1];
      After(entries[..|entries| - 1], since) + if last.id > since then [last] else []
  }

  /** The entries after one cursor and up to another. */
  function Between(entries: Entries, since: int, upto: int): Entries {
    if entries == [] then []
    else
      var last := entries[|entries| - 1];
      Between(entries[..|entries| - 1], since, upto) + if since < last.id <= upto then [last] else []
  }

  /** LIMIT: a negative bound is none, and a request above the signed range turns negative. */
  function Bound(limit: Option<nat>): Option<nat> {
    if limit.Some? && limit.value < I64_LIMIT then limit else None
  }

  function Take(entries: Entries, bound: Option<nat>): Entries {
    if bound.Some? && bound.value < |entries| then entries[..bound.value] else entries
  }

  /** `list_events_since`. */
  function EventsPage(journal: Entries, since: int, limit: Option<nat>): Entries {
    Take(After(journal, since), Bound(limit))
  }

  /** Nothing later belongs to the same message. */
  predicate IsLatest(journal: Entries, i: nat)
    requires i < |journal|
  {
    forall k :: i < k < |journal| ==> journal[k].event.messageId != journal[i].event.messageId
  }

  function LatestAmong(journal: Entries, n: nat): Entries
    requires n <= |journal|
  {
    if n == 0 then [] else LatestAmong(journal, n - 1) + if IsLatest(journal, n - 1) then [journal[n - 1]] else []
  }

  /** The latest entry of each message, in journal order. */
  function Latest(journal: Entries): Entries {
    LatestAmong(journal, |journal|)
  }

  function MessagesBound(limit: Option<nat>): Option<nat> {
    Some(if limit.None? then 100 else if limit.value > 1000 then 1000 else limit.value)
  }

  /** `list_messages`. */
  function MessagesPage(journal: Entries, since: int, limit: Option<nat>): Entries {
    Take(After(Latest(journal), since), MessagesBound(limit))
  }

  /** `list_events_since` as it collects the rows of its query. */
  method ListEventsSince(journal: Entries, since: int, limit: Option<nat>) returns (events: Entries)
    requires limit.Some? ==> limit.value < U64_LIMIT
    ensures events == EventsPage(journal, since, limit)
  {
    var bound := Bound(limit);
    events := [];
    for i := 0 to |journal|
      invariant events == Take(After(journal[..i], since), bound)
    {
      assert journal[..i + 1][..i] == journal[..i];
      if journal[i].id > since && (bound.None? || |events| < bound.value) {
        events := events + [journal[i]];
      }
    }
    assert journal[..|journal|] == journal;
  }

  // Order

  lemma {:induction false} AfterMembers(entries: Entries, since: int)
    ensures forall e :: e in After(entries, since) <==> e in entries && e.id > since
  {
    if entries != [] {
      AfterMembers(entries[..|entries| - 1], since);
      assert entries == entries[..|entries| - 1] + [entries[|entries| - 1]];
    }
  }

  lemma {:induction false} AfterIncreasing(entries: Entries, since: int)
    requires Increasing(entries)
    ensures Increasing(After(entries, since))
  {
    if entries != [] {
      AfterIncreasing(entries[..|entries| - 1], since);
      AfterMembers(entries[..|entries| - 1], since);
      var front := After(entries[..|entries| - 1], since);
      forall i | 0 <= i < |front| ensures front[i].id < entries[|entries| - 1].id {
        assert front[i] in front;
      }
    }
  }

  lemma {:induction false} BetweenMembers(entries: Entries, since: int, upto: int)
    ensures forall e :: e in Between(entries, since, upto) <==> e in entries && since < e.id <= upto
  {
    if entries != [] {
      BetweenMembers(entries[..|entries| - 1], since, upto);
      assert entries == entries[..|entries| - 1] + [entries[|entries| - 1]];
    }
  }

  lemma NoneBetween(entries: Entries, since: int, upto: int)
    requires forall e :: e in entries ==> !(since < e.id <= upto)
    ensures Between(entries, since, upto) == []
  {
  }

  lemma {:induction false} AfterIsBetween(entries: Entries, since: int, upto: int)
    requires forall e :: e in entries ==> e.id <= upto
    ensures After(entries, since) == Between(entries, since, upto)
  {
    if entries != [] {
      AfterIsBetween(entries[..|entries| - 1], since, upto);
    }
  }

  lemma BelowLast(entries: Entries)
    requires Increasing(entries) && entries != []
    ensures forall e :: e in entries[..|entries| - 1] ==> e.id < entries[|entries| - 1].id
  {
  }

  /** Consecutive slices join without gap or overlap. */
  lemma {:induction false} BetweenJoins(entries: Entries, a: int, b: int, c: int)
    requires Increasing(entries) && a <= b <= c
    ensures Between(entries, a, c) == Between(entries, a, b) + Between(entries, b, c)
  {
    if entries != [] {
      var front, last := entries[..|entries| - 1], entries[|entries| - 1];
      BetweenJoins(front, a, b, c);
      if last.id <= b {
        BelowLast(entries);
        NoneBetween(front, b, c);
        assert Between(entries, b, c) == [];
      }
    }
  }

  /** The cursor a reader holds after a page. */
  function NextCursor(page: Entries, since: int): int {
    if page == [] then since else page[|page| - 1].id
  }

  /** A page is the slice up to its own cursor. */
  lemma {:induction false} TakeIsBetween(entries: Entries, since: int, k: nat)
    requires Increasing(entries) && k <= |After(entries, since)|
    ensures var page := After(entries, since)[..k];
            page == Between(entries, since, NextCursor(page, since)) && NextCursor(page, since) >= since
  {
    AfterMembers(entries, since);
    var page := After(entries, since)[..k];
    if k == 0 {
      NoneBetween(entries, since, since);
    } else {
      assert page[k - 1] == After(entries, since)[k - 1] && page[k - 1] in entries;
      var front, last := entries[..|entries| - 1], entries[|entries| - 1];
      if k <= |After(front, since)| {
        TakeIsBetween(front, since, k);
        AfterMembers(front, since);
        assert page == After(front, since)[..k];
        assert page[k - 1] == After(front, since)[k - 1] && page[k - 1] in front;
      } else {
        AfterIsBetween(front, since, last.id);
        assert page == After(entries, since);
      }
    }
  }

  lemma PageIsBetween(entries: Entries, since: int, bound: Option<nat>)
    requires Increasing(entries)
    ensures var page := Take(After(entries, since), bound);
            page == Between(entries, since, NextCursor(page, since)) && NextCursor(page, since) >= since
  {
    var all := After(entries, since);
    var page := Take(all, bound);
    assert page == all[..|page|];
    TakeIsBetween(entries, since, |page|);
  }

  // The whole journal, page by page

  /** The journal at each page: it only grows. */
  ghost predicate Growing(journals: seq<Entries>) {
    (forall i :: 0 <= i < |journals| ==> ValidJournal(journals[i]))
    && forall i, j :: 0 <= i <= j < |journals| ==> journals[i] <= journals[j]
  }

  /** The cursor before page n. */
  function Cursor(journals: seq<Entries>, limits: seq<Option<nat>>, since: int, n: nat): int
    requires n <= |journals| == |limits|
  {
    if n == 0 then since
    else
      var before := Cursor(journals, limits, since, n - 1);
      NextCursor(EventsPage(journals[n - 1], before, limits[n - 1]), before)
  }

  /** The first n pages, one after the other. */
  function Pages(journals: seq<Entries>, limits: seq<Option<nat>>, since: int, n: nat): Entries
    requires n <= |journals| == |limits|
  {
    if n == 0 then []
    else Pages(journals, limits, since, n - 1)
         + EventsPage(journals[n - 1], Cursor(journals, limits, since, n - 1), limits[n - 1])
  }

  /** Growth does not disturb what lies at or below an id already there. */
  lemma {:induction false} BetweenStays(entries: Entries, grown: Entries, since: int, upto: int)
    requires Increasing(grown) && entries <= grown
    requires upto <= since || exists e :: e in entries && upto <= e.id
    ensures Between(grown, since, upto) == Between(entries, since, upto)
  {
    if upto <= since {
      NoneBetween(entries, since, upto);
      NoneBetween(grown, since, upto);
    } else if |entries| < |grown| {
      var e :| e in entries && upto <= e.id;
      var k :| 0 <= k < |entries| && entries[k] == e;
      assert grown[k] == e;
      BetweenStays(entries, grown[..|grown| - 1], since, upto);
    } else {
      assert entries == grown;
    }
  }

  predicate Marks(entries: Entries, since: int, cursor: int) {
    cursor == since || (cursor > since && exists e :: e in entries && e.id == cursor)
  }

  lemma PageMarks(entries: Entries, since: int, bound: Option<nat>)
    ensures Marks(entries, since, NextCursor(Take(After(entries, since), bound), since))
  {
  }

  /** One more page extends the slice read so far, although the journal grew in between. */
  lemma PageExtends(entries: Entries, grown: Entries, since: int, before: int, bound: Option<nat>)
    requires Increasing(grown) && entries <= grown && Marks(entries, since, before)
    ensures var page := Take(After(grown, before), bound);
            var after := NextCursor(page, before);
            && Between(entries, since, before) + page == Between(grown, since, after)
            && Marks(grown, since, after)
  {
    var after := NextCursor(Take(After(grown, before), bound), before);
    PageIsBetween(grown, before, bound);
    PageMarks(grown, before, bound);
    if before > since {
      var e :| e in entries && e.id == before;
      var k :| 0 <= k < |entries| && entries[k] == e;
      assert grown[k] == e;
    }
    BetweenStays(entries, grown, since, before);
    BetweenJoins(grown, since, before, after);
  }

  lemma {:induction false} PagesSoFar(journals: seq<Entries>, limits: seq<Option<nat>>, since: int, n: nat)
    requires 0 < n <= |journals| == |limits| && Growing(journals)
    ensures var cursor := Cursor(journals, limits, since, n);
            Pages(journals, limits, since, n) == Between(journals[n - 1], since, cursor)
            && Marks(journals[n - 1], since, cursor)
  {
    var bound := Bound(limits[n - 1]);
    if n == 1 {
      NoneBetween([], since, since);
      PageExtends([], journals[0], since, since, bound);
    } else {
      PagesSoFar(journals, limits, since, n - 1);
      PageExtends(journals[n - 2], journals[n - 1], since, Cursor(journals, limits, since, n - 1), bound);
    }
  }

  /** Asking again with the last id returned, with any limits and any appends in between: the
      pages together are exactly the journal between the first cursor and the last, each
      entry once and in order. */
  lemma PagesAreTheJournal(journals: seq<Entries>, limits: seq<Option<nat>>, since: int)
    requires |journals| == |limits| > 0 && Growing(journals)
    ensures var n := |journals|;
            var pages := Pages(journals, limits, since, n);
            && pages == Between(journals[n - 1], since, Cursor(journals, limits, since, n))
            && Increasing(pages)
            && Cursor(journals, limits, since, n) == NextCursor(pages, since)
  {
    var n := |journals|;
    PagesSoFar(journals, limits, since, n);
    BetweenIncreasing(journals[n - 1], since, Cursor(journals, limits, since, n));
    CursorIsLast(journals, limits, since, n);
  }

  lemma {:induction false} CursorIsLast(journals: seq<Entries>, limits: seq<Option<nat>>, since: int, n: nat)
    requires n <= |journals| == |limits|
    ensures Cursor(journals, limits, since, n) == NextCursor(Pages(journals, limits, since, n), since)
  {
    if n > 0 {
      CursorIsLast(journals, limits, since, n - 1);
    }
  }

  lemma {:induction false} BetweenIncreasing(entries: Entries, since: int, upto: int)
    requires Increasing(entries)
    ensures Increasing(Between(entries, since, upto))
  {
    if entries != [] {
      BetweenIncreasing(entries[..|entries| - 1], since, upto);
      BetweenMembers(entries[..|entries| - 1], since, upto);
      var front := Between(entries[..|entries| - 1], since, upto);
      forall i | 0 <= i < |front| ensures front[i].id < entries[|entries| - 1].id {
        assert front[i] in front;
      }
    }
  }

  /** With limits of at least one, a page is empty exactly when nothing is left; and then the
      pages hold everything after the first cursor. */
  lemma EmptyPageExactly(journals: seq<Entries>, limits: seq<Option<nat>>, since: int, n: nat)
    requires n < |journals| == |limits| && Growing(journals)
    requires limits[n].Some? ==> limits[n].value >= 1
    ensures var cursor := Cursor(journals, limits, since, n);
            && (EventsPage(journals[n], cursor, limits[n]) == [] <==> forall e :: e in journals[n] ==> e.id <= cursor)
            && (EventsPage(journals[n], cursor, limits[n]) == [] ==>
                  Pages(journals, limits, since, n) == After(journals[n], since))
  {
    var cursor := Cursor(journals, limits, since, n);
    EmptyTakeExactly(journals[n], cursor, Bound(limits[n]));
    if EventsPage(journals[n], cursor, limits[n]) == [] {
      BeforeEmptyPage(journals, limits, since, n, cursor);
      AfterIsBetween(journals[n], since, cursor);
    }
  }

  /** An empty page neither moves the cursor nor adds anything. */
  lemma BeforeEmptyPage(journals: seq<Entries>, limits: seq<Option<nat>>, since: int, n: nat, cursor: int)
    requires n < |journals| == |limits| && Growing(journals) && cursor == Cursor(journals, limits, since, n)
    requires EventsPage(journals[n], cursor, limits[n]) == []
    ensures Pages(journals, limits, since, n) == Between(journals[n], since, cursor)
  {
    PagesSoFar(journals, limits, since, n + 1);
    assert Cursor(journals, limits, since, n + 1) == cursor;
  }

  lemma EmptyTakeExactly(entries: Entries, since: int, bound: Option<nat>)
    requires bound.Some? ==> bound.value >= 1
    ensures Take(After(entries, since), bound) == [] <==> forall e :: e in entries ==> e.id <= since
  {
  }

  /** A page holds no more entries than asked for, all after the cursor; when it holds fewer,
      or when the limit has no signed form, it holds all of those. */
  lemma PageSize(journal: Entries, since: int, limit: nat)
    ensures var page := EventsPage(journal, since, Some(limit));
            && (limit < I64_LIMIT ==> |page| <= limit)
            && (|page| < limit || limit >= I64_LIMIT ==> forall e :: e in journal && e.id > since ==> e in page)
            && forall e :: e in page ==> e in journal && e.id > since
    ensures forall e :: e in EventsPage(journal, since, None) <==> e in journal && e.id > since
  {
    AfterMembers(journal, since);
  }

  // The messages, page by page

  /** The entry is in the journal and nothing later belongs to its message. */
  predicate LatestOfMessage(journal: Entries, e: JournaledEvent) {
    exists i :: 0 <= i < |journal| && journal[i] == e && IsLatest(journal, i)
  }

  lemma {:induction false} LatestMembers(journal: Entries, n: nat, e: JournaledEvent)
    requires n <= |journal|
    ensures e in LatestAmong(journal, n) <==> exists i :: 0 <= i < n && journal[i] == e && IsLatest(journal, i)
  {
    if n > 0 {
      LatestMembers(journal, n - 1, e);
    }
  }

  lemma {:induction false} LatestIncreasing(journal: Entries, n: nat)
    requires n <= |journal| && Increasing(journal)
    ensures Increasing(LatestAmong(journal, n))
  {
    if n > 0 {
      LatestIncreasing(journal, n - 1);
      var front := LatestAmong(journal, n - 1);
      forall i | 0 <= i < |front| ensures front[i].id < journal[n - 1].id {
        LatestMembers(journal, n - 1, front[i]);
        assert front[i] in front;
      }
    }
  }

  function MessagesCursor(journals: seq<Entries>, limits: seq<Option<nat>>, since: int, n: nat): int
    requires n <= |journals| == |limits|
  {
    if n == 0 then since
    else
      var before := MessagesCursor(journals, limits, since, n - 1);
      NextCursor(MessagesPage(journals[n - 1], before, limits[n - 1]), before)
  }

  /** The first n pages. */
  function MessagesPageList(journals: seq<Entries>, limits: seq<Option<nat>>, since: int, n: nat): seq<Entries>
    requires n <= |journals| == |limits|
  {
    seq(n, i requires 0 <= i < n => MessagesPage(journals[i], MessagesCursor(journals, limits, since, i), limits[i]))
  }

  function Flat(pages: seq<Entries>): Entries {
    if pages == [] then [] else Flat(pages[..|pages| - 1]) + pages[|pages| - 1]
  }

  /** What they hold, one after the other. */
  function MessagesPages(journals: seq<Entries>, limits: seq<Option<nat>>, since: int, n: nat): Entries
    requires n <= |journals| == |limits|
  {
    Flat(MessagesPageList(journals, limits, since, n))
  }

  lemma {:induction false} FlatMembers(pages: seq<Entries>, e: JournaledEvent)
    ensures e in Flat(pages) <==> exists m :: 0 <= m < |pages| && e in pages[m]
  {
    if pages != [] {
      FlatMembers(pages[..|pages| - 1], e);
    }
  }

  /** A page holds exactly the latest entries between its two cursors. */
  lemma MessagesPageExactly(journal: Entries, since: int, limit: Option<nat>, e: JournaledEvent)
    requires Increasing(journal)
    ensures var page := MessagesPage(journal, since, limit);
            && (e in page <==> LatestOfMessage(journal, e) && since < e.id <= NextCursor(page, since))
            && NextCursor(page, since) >= since
            && |page| <= 1000
  {
    var view := Latest(journal);
    LatestIncreasing(journal, |journal|);
    LatestMembers(journal, |journal|, e);
    var page := MessagesPage(journal, since, limit);
    PageIsBetween(view, since, MessagesBound(limit));
    BetweenMembers(view, since, NextCursor(page, since));
  }

  /** A message page holds at most as many entries as asked for, a hundred when nothing is said
      and a thousand at any rate; when it holds fewer, no message is left out. */
  lemma MessagesPageSize(journal: Entries, since: int, limit: Option<nat>, most: nat)
    requires most == match limit case None => 100 case Some(n) => if n < 1000 then n else 1000
    ensures |MessagesPage(journal, since, limit)| <= most
    ensures |MessagesPage(journal, since, limit)| < most ==>
              forall e :: LatestOfMessage(journal, e) && e.id > since ==> e in MessagesPage(journal, since, limit)
  {
    AfterMembers(Latest(journal), since);
    forall e | LatestOfMessage(journal, e) ensures e in Latest(journal) {
      LatestMembers(journal, |journal|, e);
    }
  }

  /** What is the latest entry of its message later on was so in any earlier journal that
      already held it. */
  lemma LatestEarlier(journal: Entries, grown: Entries, e: JournaledEvent, mark: JournaledEvent)
    requires Increasing(grown) && journal <= grown && LatestOfMessage(grown, e) && mark in journal && e.id <= mark.id
    ensures LatestOfMessage(journal, e)
  {
  }

  lemma MessagesCursorMoves(journal: Entries, since: int, limit: Option<nat>)
    requires Increasing(journal)
    ensures var page := MessagesPage(journal, since, limit);
            page != [] ==> page[|page| - 1] in journal && page[|page| - 1].id == NextCursor(page, since)
  {
    var page := MessagesPage(journal, since, limit);
    if page != [] {
      MessagesPageExactly(journal, since, limit, page[|page| - 1]);
      assert page[|page| - 1] in page;
    }
  }

  lemma PageHasLatest(journal: Entries, final: Entries, since: int, limit: Option<nat>, e: JournaledEvent)
    requires Increasing(journal) && Increasing(final) && journal <= final && LatestOfMessage(final, e)
    requires since < e.id <= NextCursor(MessagesPage(journal, since, limit), since)
    ensures e in MessagesPage(journal, since, limit)
  {
    var page := MessagesPage(journal, since, limit);
    MessagesCursorMoves(journal, since, limit);
    LatestEarlier(journal, final, e, page[|page| - 1]);
    MessagesPageExactly(journal, since, limit, e);
  }

  lemma EmptyMessagesPage(journal: Entries, since: int, limit: Option<nat>, e: JournaledEvent)
    requires MessagesPage(journal, since, limit) == [] && (limit.Some? ==> limit.value >= 1)
    requires LatestOfMessage(journal, e)
    ensures e.id <= since
  {
    EmptyTakeExactly(Latest(journal), since, MessagesBound(limit));
    LatestMembers(journal, |journal|, e);
  }

  /** The page whose cursors an id lies between. */
  lemma {:induction false} PageOf(journals: seq<Entries>, limits: seq<Option<nat>>, since: int, n: nat, id: int)
    returns (m: nat)
    requires n <= |journals| == |limits| && since < id <= MessagesCursor(journals, limits, since, n)
    ensures m < n && MessagesCursor(journals, limits, since, m) < id <= MessagesCursor(journals, limits, since, m + 1)
  {
    m := n - 1;
    if id <= MessagesCursor(journals, limits, since, m) {
      m := PageOf(journals, limits, since, m, id);
    }
  }

  lemma LatestIsPaged(journals: seq<Entries>, limits: seq<Option<nat>>, since: int, n: nat, e: JournaledEvent, final: Entries)
    requires n <= |journals| == |limits| && Increasing(final)
    requires forall i :: 0 <= i < n ==> Increasing(journals[i]) && journals[i] <= final
    requires LatestOfMessage(final, e) && since < e.id <= MessagesCursor(journals, limits, since, n)
    ensures e in MessagesPages(journals, limits, since, n)
  {
    var m := PageOf(journals, limits, since, n, e.id);
    var before := MessagesCursor(journals, limits, since, m);
    PageHasLatest(journals[m], final, before, limits[m], e);
    var pages := MessagesPageList(journals, limits, since, n);
    assert pages[m] == MessagesPage(journals[m], before, limits[m]);
    FlatMembers(pages, e);
  }

  /** Every entry returned lay after the first cursor and was the latest of its message when
      its page was read. */
  lemma PagedIsLatest(journals: seq<Entries>, limits: seq<Option<nat>>, since: int, n: nat, e: JournaledEvent)
    requires n <= |journals| == |limits| && (forall i :: 0 <= i < n ==> Increasing(journals[i]))
    requires e in MessagesPages(journals, limits, since, n)
    ensures MessagesCursor(journals, limits, since, n) >= since
    ensures e.id > since && exists i :: 0 <= i < n && LatestOfMessage(journals[i], e)
  {
    MessagesCursorGrows(journals, limits, since, n);
    var pages := MessagesPageList(journals, limits, since, n);
    FlatMembers(pages, e);
    var m :| 0 <= m < |pages| && e in pages[m];
    var before := MessagesCursor(journals, limits, since, m);
    MessagesCursorGrows(journals, limits, since, m);
    MessagesPageExactly(journals[m], before, limits[m], e);
  }

  lemma {:induction false} MessagesCursorGrows(journals: seq<Entries>, limits: seq<Option<nat>>, since: int, n: nat)
    requires n <= |journals| == |limits| && forall i :: 0 <= i < n ==> Increasing(journals[i])
    ensures MessagesCursor(journals, limits, since, n) >= since
  {
    if n > 0 {
      MessagesCursorGrows(journals, limits, since, n - 1);
      MessagesCursorRises(journals[n - 1], MessagesCursor(journals, limits, since, n - 1), limits[n - 1]);
    }
  }

  lemma MessagesCursorRises(journal: Entries, since: int, limit: Option<nat>)
    requires Increasing(journal)
    ensures NextCursor(MessagesPage(journal, since, limit), since) >= since
  {
    LatestIncreasing(journal, |journal|);
    PageIsBetween(Latest(journal), since, MessagesBound(limit));
  }

  /** Paging through the messages, with any limits and any appends in between: the pages hold
      the latest entry of every message whose latest entry is above the first cursor and not
      above the last one reached. */
  lemma NoMessageIsMissed(journals: seq<Entries>, limits: seq<Option<nat>>, since: int, e: JournaledEvent)
    requires |journals| == |limits| > 0 && Growing(journals)
    requires LatestOfMessage(journals[|journals| - 1], e)
    requires since < e.id <= MessagesCursor(journals, limits, since, |journals|)
    ensures e in MessagesPages(journals, limits, since, |journals|)
  {
    LatestIsPaged(journals, limits, since, |journals|, e, journals[|journals| - 1]);
  }

  /** With limits of at least one, an empty page ends the reading: every message whose latest
      entry is above the first cursor had been returned with it. */
  lemma EmptyPageMissesNothing(journals: seq<Entries>, limits: seq<Option<nat>>, since: int, n: nat, e: JournaledEvent)
    requires n < |journals| == |limits| && Growing(journals) && (limits[n].Some? ==> limits[n].value >= 1)
    requires MessagesPage(journals[n], MessagesCursor(journals, limits, since, n), limits[n]) == []
    requires LatestOfMessage(journals[n], e) && since < e.id
    ensures e in MessagesPages(journals, limits, since, n)
  {
    var final := journals[n];
    EmptyMessagesPage(final, MessagesCursor(journals, limits, since, n), limits[n], e);
    assert forall i :: 0 <= i < n ==> Increasing(journals[i]) && journals[i] <= final;
    LatestIsPaged(journals, limits, since, n, e, final);
  }
}
