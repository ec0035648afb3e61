/** The event stream: backlog, live broadcasts, and repair from the journal after a lag, in
    every interleaving with the writers of the journal and the broadcaster. */
module Stream {
  import opened Wrappers
  import opened Model
  import opened Journal
  import opened Paging

  const CHANNEL_CAPACITY: nat := 1024

  datatype Pc =
    | Querying
    | Replaying(todo: Entries)
    | Live

  /** One subscription. `sent` holds what was broadcast since it began, `pos` how far the
      receiver is in it; the channel itself retains only the last 1024 of them. */
  datatype World = World(journal: Entries, sent: Entries, pos: nat, since: int, lastSent: int, emitted: Entries, pc: Pc)

  datatype Action =
    | AppendEntry(entry: JournaledEvent)
    | Broadcast(entry: JournaledEvent)
    | Query(ok: bool)
    | Replay
    | Receive
    | Lag

  function Oldest(w: World): nat {
    if |w.sent| <= CHANNEL_CAPACITY then 0 else |w.sent| - CHANNEL_CAPACITY
  }

  predicate Lagging(w: World) {
    w.pos < Oldest(w)
  }

  /** Only committed entries are broadcast, in any order; some never are. */
  ghost predicate Enabled(w: World, a: Action) {
    match a
    case AppendEntry(entry) => entry.id >= NextId(w.journal)
    case Broadcast(entry) => entry in w.journal
    case Query(_) => w.pc.Querying?
    case Replay => w.pc.Replaying?
    case Receive => w.pc.Live? && !Lagging(w) && w.pos < |w.sent|
    case Lag => w.pc.Live? && Lagging(w)
  }

  function Emit(w: World, entry: JournaledEvent): World {
    w.(lastSent := entry.id, emitted := w.emitted + [entry])
  }

  function Apply(w: World, a: Action): World
    requires a.Receive? ==> w.pos < |w.sent|
    requires a.Replay? ==> w.pc.Replaying?
  {
    match a
    case AppendEntry(entry) => w.(journal := w.journal + [entry])
    case Broadcast(entry) => w.(sent := w.sent + [entry])
    case Query(ok) => w.(pc := if ok then Replaying(After(w.journal, w.lastSent)) else Live)
    case Replay =>
      if w.pc.todo == [] then w.(pc := Live)
      else Emit(w.(pc := Replaying(w.pc.todo[1..])), w.pc.todo[0])
    case Receive =>
      var entry := w.sent[w.pos];
      var w' := w.(pos := w.pos + 1);
      if entry.id <= w.lastSent then w' else Emit(w', entry)
    case Lag => w.(pos := Oldest(w), pc := Querying)
  }

  /** A client asks for what comes after `since`. */
  ghost predicate Initial(w: World) {
    ValidJournal(w.journal) && w.sent == [] && w.pos == 0 && w.lastSent == w.since && w.emitted == [] && w.pc == Querying
  }

  ghost predicate IsRun(ws: seq<World>, acts: seq<Action>) {
    |ws| == |acts| + 1 && Initial(ws[0])
    && forall i :: 0 <= i < |acts| ==> Enabled(ws[i], acts[i]) && ws[i + 1] == Apply(ws[i], acts[i])
  }

  ghost predicate AllIn(entries: Entries, journal: Entries) {
    forall k :: 0 <= k < |entries| ==> entries[k] in journal
  }

  /** What was emitted, and what a replay still has to emit. */
  ghost predicate Inv(w: World) {
    && ValidJournal(w.journal)
    && AllIn(w.sent, w.journal) && w.pos <= |w.sent|
    && AllIn(w.emitted, w.journal) && Increasing(w.emitted)
    && (forall k :: 0 <= k < |w.emitted| ==> w.since < w.emitted[k].id <= w.lastSent)
    && w.lastSent == NextCursor(w.emitted, w.since)
    && (w.pc.Replaying? ==> AllIn(w.pc.todo, w.journal) && Increasing(w.pc.todo)
                            && forall k :: 0 <= k < |w.pc.todo| ==> w.pc.todo[k].id > w.lastSent)
  }

  lemma AppendKeepsIncreasing(journal: Entries, entry: JournaledEvent)
    requires ValidJournal(journal) && entry.id >= NextId(journal)
    ensures ValidJournal(journal + [entry])
  {
  }

  lemma EmitInv(w: World, entry: JournaledEvent)
    requires Inv(w) && !w.pc.Replaying? && entry in w.journal && entry.id > w.lastSent
    ensures Inv(Emit(w, entry))
  {
  }

  lemma ReplayInv(w: World)
    requires Inv(w) && w.pc.Replaying?
    ensures Inv(Apply(w, Replay))
  {
    if w.pc.todo != [] {
      var entry, rest := w.pc.todo[0], w.pc.todo[1..];
      EmitInv(w.(pc := Live), entry);
      assert forall k :: 0 <= k < |rest| ==> rest[k] == w.pc.todo[k + 1];
    }
  }

  lemma QueryInv(w: World, ok: bool)
    requires Inv(w) && w.pc.Querying?
    ensures Inv(Apply(w, Query(ok)))
  {
    var todo := After(w.journal, w.lastSent);
    AfterMembers(w.journal, w.lastSent);
    AfterIncreasing(w.journal, w.lastSent);
    forall k | 0 <= k < |todo| ensures todo[k] in w.journal && todo[k].id > w.lastSent {
      assert todo[k] in todo;
    }
  }

  lemma StepInv(w: World, a: Action)
    requires Inv(w) && Enabled(w, a)
    ensures Inv(Apply(w, a))
  {
    match a
    case AppendEntry(entry) => AppendKeepsIncreasing(w.journal, entry);
    case Broadcast(_) =>
    case Query(ok) => QueryInv(w, ok);
    case Replay => ReplayInv(w);
    case Receive =>
      var entry := w.sent[w.pos];
      if entry.id > w.lastSent { EmitInv(w.(pos := w.pos + 1), entry); }
    case Lag =>
  }

  lemma {:induction false} RunInv(ws: seq<World>, acts: seq<Action>, i: nat)
    requires IsRun(ws, acts) && i < |ws|
    ensures Inv(ws[i]) && ws[i].since == ws[0].since
  {
    if i > 0 {
      RunInv(ws, acts, i - 1);
      StepInv(ws[i - 1], acts[i - 1]);
    }
  }

  /** In every interleaving of appends, broadcasts, failed queries and lag, the stream emits
      only journal entries after `since`, with strictly increasing ids, and its cursor is the
      last of them. */
  lemma EmitsInOrder(ws: seq<World>, acts: seq<Action>, i: nat, k: nat)
    requires IsRun(ws, acts) && i < |ws| && k < |ws[i].emitted|
    ensures ws[i].emitted[k] in ws[i].journal && ws[0].since < ws[i].emitted[k].id <= ws[i].lastSent
    ensures forall l :: k < l < |ws[i].emitted| ==> ws[i].emitted[k].id < ws[i].emitted[l].id
    ensures ws[i].lastSent == ws[i].emitted[|ws[i].emitted| - 1].id
  {
    RunInv(ws, acts, i);
  }

  // What a query owes

  /** The entry was emitted, or is still to come from the query under way. */
  predicate Due(w: World, e: JournaledEvent) {
    || e in w.emitted
    || (w.pc.Querying? && e in w.journal && e.id > w.lastSent)
    || (w.pc.Replaying? && e in w.pc.todo)
  }

  lemma StepDue(w: World, a: Action, e: JournaledEvent)
    requires Enabled(w, a) && Due(w, e) && a != Query(false)
    ensures Due(Apply(w, a), e)
  {
    if a.Query? { AfterMembers(w.journal, w.lastSent); }
  }

  lemma {:induction false} RunDue(ws: seq<World>, acts: seq<Action>, i: nat, j: nat, e: JournaledEvent)
    requires IsRun(ws, acts) && i <= j < |ws| && Due(ws[i], e)
    requires forall k :: i <= k < j ==> acts[k] != Query(false)
    ensures Due(ws[j], e)
  {
    if i < j {
      RunDue(ws, acts, i, j - 1, e);
      StepDue(ws[j - 1], acts[j - 1], e);
    }
  }

  /** From the moment the stream turns to the journal, at its start or after a lag, until it is
      live: unless a query fails it has then emitted everything the journal held behind its
      cursor, whatever was appended, broadcast or dropped meanwhile. */
  lemma BacklogIsServed(ws: seq<World>, acts: seq<Action>, i: nat, j: nat)
    requires IsRun(ws, acts) && i <= j < |ws| && ws[i].pc.Querying? && ws[j].pc.Live?
    requires forall k :: i <= k < j ==> acts[k] != Query(false)
    ensures forall e :: e in ws[i].journal && e.id > ws[i].lastSent ==> e in ws[j].emitted
  {
    forall e | e in ws[i].journal && e.id > ws[i].lastSent ensures e in ws[j].emitted {
      RunDue(ws, acts, i, j, e);
    }
  }

  // Completeness

  /** The stream has emitted exactly the journal between its start and its cursor. */
  predicate Exact(w: World) {
    w.emitted == Between(w.journal, w.since, w.lastSent)
  }

  /** A live emission leaves no entry of the journal behind. */
  predicate GapFree(w: World, a: Action)
    requires a.Receive? ==> w.pos < |w.sent|
  {
    a.Receive? && w.sent[w.pos].id > w.lastSent ==>
      forall e :: e in w.journal ==> !(w.lastSent < e.id < w.sent[w.pos].id)
  }

  /** A replay is the rest of some earlier journal, with nothing left out. */
  ghost predicate ReplayOk(w: World) {
    w.pc.Replaying? ==> exists n :: 0 <= n <= |w.journal| && w.pc.todo == After(w.journal[..n], w.lastSent)
  }

  lemma {:induction false} OneBetween(journal: Entries, since: int, e: JournaledEvent)
    requires Increasing(journal) && e in journal && e.id > since
    requires forall f :: f in journal ==> !(since < f.id < e.id)
    ensures Between(journal, since, e.id) == [e]
  {
    var front, last := journal[..|journal| - 1], journal[|journal| - 1];
    assert journal == front + [last];
    if last == e {
      NoneBetween(front, since, e.id);
    } else {
      var k :| 0 <= k < |journal| && journal[k] == e;
      assert last.id > e.id;
      assert front[k] == e;
      OneBetween(front, since, e);
    }
  }

  lemma ExactEmission(w: World, entry: JournaledEvent)
    requires Inv(w) && Exact(w) && entry in w.journal && entry.id > w.lastSent
    requires forall e :: e in w.journal ==> !(w.lastSent < e.id < entry.id)
    ensures Exact(Emit(w, entry))
  {
    OneBetween(w.journal, w.lastSent, entry);
    BetweenJoins(w.journal, w.since, w.lastSent, entry.id);
  }

  /** The next entry of a replay is the next entry of the journal. */
  lemma HeadOfAfter(journal: Entries, n: nat, since: int)
    requires Increasing(journal) && n <= |journal| && After(journal[..n], since) != []
    ensures var all := After(journal[..n], since);
            && all[0] in journal && all[0].id > since
            && (forall e :: e in journal ==> !(since < e.id < all[0].id))
            && all[1..] == After(journal[..n], all[0].id)
  {
    var early := journal[..n];
    var all := After(early, since);
    AfterMembers(early, since);
    AfterIncreasing(early, since);
    assert all[0] in all;
    forall e | e in journal ensures !(since < e.id < all[0].id) {
      if e in early && e.id > since {
        var k :| 0 <= k < |all| && all[k] == e;
      } else if e !in early {
        var i :| 0 <= i < |journal| && journal[i] == e;
        var j :| 0 <= j < n && journal[j] == all[0];
        assert forall k :: 0 <= k < n ==> journal[k] == early[k];
        assert i >= n;
      }
    }
    AfterSkips(early, since);
  }

  lemma {:induction false} AfterSkips(entries: Entries, since: int)
    requires Increasing(entries) && After(entries, since) != []
    ensures After(entries, since)[1..] == After(entries, After(entries, since)[0].id)
  {
    var front, last := entries[..|entries| - 1], entries[|entries| - 1];
    var all := After(entries, since);
    AfterMembers(entries, since);
    AfterMembers(front, since);
    if After(front, since) == [] {
      AfterIsBetween(front, last.id, last.id);
      NoneBetween(front, last.id, last.id);
    } else {
      AfterSkips(front, since);
      assert After(front, since)[0] in After(front, since);
      assert last.id > After(front, since)[0].id;
    }
  }

  lemma AppendExact(w: World, entry: JournaledEvent)
    requires Inv(w) && Exact(w) && entry.id >= NextId(w.journal)
    ensures Exact(Apply(w, AppendEntry(entry)))
  {
  }

  lemma ReplayExact(w: World)
    requires Inv(w) && ReplayOk(w) && Exact(w) && w.pc.Replaying?
    ensures Exact(Apply(w, Replay)) && ReplayOk(Apply(w, Replay))
  {
    if w.pc.todo != [] {
      var n :| 0 <= n <= |w.journal| && w.pc.todo == After(w.journal[..n], w.lastSent);
      HeadOfAfter(w.journal, n, w.lastSent);
      ExactEmission(w, w.pc.todo[0]);
    }
  }

  lemma StepReplayOk(w: World, a: Action)
    requires Inv(w) && ReplayOk(w) && Exact(w) && Enabled(w, a) && !a.Replay?
    ensures ReplayOk(Apply(w, a))
  {
    match a
    case AppendEntry(entry) =>
      if w.pc.Replaying? {
        var n :| 0 <= n <= |w.journal| && w.pc.todo == After(w.journal[..n], w.lastSent);
        assert (w.journal + [entry])[..n] == w.journal[..n];
      }
    case Query(ok) =>
      assert w.journal[..|w.journal|] == w.journal;
    case _ =>
  }

  lemma StepExact(w: World, a: Action)
    requires Inv(w) && ReplayOk(w) && Exact(w) && Enabled(w, a) && GapFree(w, a)
    ensures Exact(Apply(w, a)) && ReplayOk(Apply(w, a))
  {
    if a.Replay? {
      ReplayExact(w);
    } else {
      StepReplayOk(w, a);
      if a.AppendEntry? {
        AppendExact(w, a.entry);
      } else if a.Receive? && w.sent[w.pos].id > w.lastSent {
        ExactEmission(w, w.sent[w.pos]);
      }
    }
  }

  /** An entry the cursor has passed and the stream has not emitted. */
  predicate Missed(w: World, e: JournaledEvent) {
    e in w.journal && w.since < e.id <= w.lastSent && e !in w.emitted
  }

  lemma MissedIsForever(w: World, a: Action, e: JournaledEvent)
    requires Inv(w) && Enabled(w, a) && Missed(w, e)
    ensures Missed(Apply(w, a), e)
  {
  }

  lemma GapIsMissed(w: World, a: Action)
    requires Inv(w) && Enabled(w, a) && !GapFree(w, a)
    ensures exists e :: Missed(Apply(w, a), e)
  {
    var e :| e in w.journal && w.lastSent < e.id < w.sent[w.pos].id;
    assert Missed(Apply(w, a), e);
  }

  lemma MissedIsInexact(w: World, e: JournaledEvent)
    requires Missed(w, e)
    ensures !Exact(w)
  {
    BetweenMembers(w.journal, w.since, w.lastSent);
  }

  lemma {:induction false} RunExact(ws: seq<World>, acts: seq<Action>, i: nat)
    requires IsRun(ws, acts) && i < |ws|
    requires forall k :: 0 <= k < i ==> GapFree(ws[k], acts[k])
    ensures Exact(ws[i]) && ReplayOk(ws[i])
  {
    if i == 0 {
      NoneBetween(ws[0].journal, ws[0].since, ws[0].since);
    } else {
      RunExact(ws, acts, i - 1);
      RunInv(ws, acts, i - 1);
      StepExact(ws[i - 1], acts[i - 1]);
    }
  }

  lemma {:induction false} RunMisses(ws: seq<World>, acts: seq<Action>, k: nat, i: nat)
    requires IsRun(ws, acts) && k < i < |ws| && !GapFree(ws[k], acts[k])
    ensures exists e :: Missed(ws[i], e)
  {
    RunInv(ws, acts, i - 1);
    if k == i - 1 {
      GapIsMissed(ws[k], acts[k]);
    } else {
      RunMisses(ws, acts, k, i - 1);
      var e :| Missed(ws[i - 1], e);
      MissedIsForever(ws[i - 1], acts[i - 1], e);
      assert Missed(ws[i], e);
    }
  }

  /** The stream has emitted exactly the journal entries between its start and its cursor,
      each once and in order, if and only if no live emission so far jumped over an entry. */
  lemma ExactExactly(ws: seq<World>, acts: seq<Action>, i: nat)
    requires IsRun(ws, acts) && i < |ws|
    ensures Exact(ws[i]) <==> forall k :: 0 <= k < i ==> GapFree(ws[k], acts[k])
  {
    if forall k :: 0 <= k < i ==> GapFree(ws[k], acts[k]) {
      RunExact(ws, acts, i);
    } else {
      var k :| 0 <= k < i && !GapFree(ws[k], acts[k]);
      RunMisses(ws, acts, k, i);
      var e :| Missed(ws[i], e);
      MissedIsInexact(ws[i], e);
    }
  }

  // Broadcasts in journal order

  /** Since the subscription, the journal from `base` on was broadcast in order, none dropped. */
  predicate InOrder(w: World, base: nat) {
    base + |w.sent| <= |w.journal| && w.sent == w.journal[base..base + |w.sent|]
  }

  /** Everything broadcast and taken so far was emitted or will be by the replay. */
  ghost predicate Heard(w: World, base: nat) {
    match w.pc
    case Querying => true
    case Replaying(todo) =>
      exists n :: base + w.pos <= n <= |w.journal| && todo == After(w.journal[..n], w.lastSent)
    case Live => forall k :: 0 <= k < base + w.pos && k < |w.journal| ==> w.journal[k].id <= w.lastSent
  }

  lemma HeardIsGapFree(w: World, a: Action, base: nat)
    requires Inv(w) && InOrder(w, base) && Heard(w, base) && Enabled(w, a)
    ensures GapFree(w, a)
  {
  }

  /** A finished replay has covered everything taken before it began. */
  lemma ReplayedAll(journal: Entries, n: nat, since: int)
    requires n <= |journal| && After(journal[..n], since) == []
    ensures forall k :: 0 <= k < n ==> journal[k].id <= since
  {
    EmptyTakeExactly(journal[..n], since, None);
    forall k | 0 <= k < n ensures journal[k].id <= since {
      assert journal[..n][k] == journal[k];
      assert journal[k] in journal[..n];
    }
  }

  /** A replay under way goes on with the rest of the same early journal. */
  lemma ReplayNext(w: World, n: nat, w': World)
    requires ValidJournal(w.journal) && n <= |w.journal| && w.pc.Replaying? && w.pc.todo != []
    requires w.pc.todo == After(w.journal[..n], w.lastSent) && w' == Apply(w, Replay)
    ensures w'.pc == Replaying(After(w'.journal[..n], w'.lastSent)) && w'.journal == w.journal && w'.pos == w.pos
  {
    HeadOfAfter(w.journal, n, w.lastSent);
  }

  lemma ReplayHeard(w: World, base: nat, w': World)
    requires Inv(w) && InOrder(w, base) && Heard(w, base) && w.pc.Replaying? && w' == Apply(w, Replay)
    ensures Heard(w', base)
  {
    var n :| base + w.pos <= n <= |w.journal| && w.pc.todo == After(w.journal[..n], w.lastSent);
    if w.pc.todo == [] {
      ReplayedAll(w.journal, n, w.lastSent);
    } else {
      ReplayNext(w, n, w');
    }
  }

  lemma ReceiveHeard(w: World, base: nat)
    requires Inv(w) && InOrder(w, base) && Heard(w, base) && Enabled(w, Receive)
    ensures Heard(Apply(w, Receive), base)
  {
  }

  lemma StepHeard(w: World, a: Action, base: nat)
    requires Inv(w) && InOrder(w, base) && Heard(w, base) && Enabled(w, a)
    requires a.Query? ==> a.ok
    ensures Heard(Apply(w, a), base)
  {
    match a
    case Replay => ReplayHeard(w, base, Apply(w, a));
    case Receive => ReceiveHeard(w, base);
    case Query(_) =>
      assert w.journal[..|w.journal|] == w.journal;
    case AppendEntry(entry) =>
      if w.pc.Replaying? {
        var n :| base + w.pos <= n <= |w.journal| && w.pc.todo == After(w.journal[..n], w.lastSent);
        assert (w.journal + [entry])[..n] == w.journal[..n];
      }
    case _ =>
  }

  lemma HeardAt(ws: seq<World>, acts: seq<Action>, base: nat, i: nat)
    requires IsRun(ws, acts) && i < |acts| && InOrder(ws[i], base) && Heard(ws[i], base)
    requires acts[i].Query? ==> acts[i].ok
    ensures Heard(ws[i + 1], base)
  {
    RunInv(ws, acts, i);
    StepHeard(ws[i], acts[i], base);
  }

  lemma {:induction false} RunHeard(ws: seq<World>, acts: seq<Action>, base: nat, i: nat)
    requires IsRun(ws, acts) && i < |ws| && (forall k :: 0 <= k < |ws| ==> InOrder(ws[k], base))
    requires forall k :: 0 <= k < |acts| && acts[k].Query? ==> acts[k].ok
    ensures Heard(ws[i], base)
  {
    if i > 0 {
      RunHeard(ws, acts, base, i - 1);
      HeardAt(ws, acts, base, i - 1);
    }
  }

  /** When broadcasts happen in journal order with none dropped and every query succeeds, then
      through any interleaving and any lag the stream has emitted exactly the journal between
      its start and its cursor, and once it is live that is everything it was sent. */
  lemma InOrderIsExact(ws: seq<World>, acts: seq<Action>, base: nat, i: nat)
    requires IsRun(ws, acts) && i < |ws| && (forall k :: 0 <= k < |ws| ==> InOrder(ws[k], base))
    requires forall k :: 0 <= k < |acts| && acts[k].Query? ==> acts[k].ok
    ensures ws[i].emitted == Between(ws[i].journal, ws[i].since, ws[i].lastSent)
    ensures ws[i].pos <= |ws[i].sent|
    ensures ws[i].pc.Live? ==>
              forall k :: 0 <= k < ws[i].pos ==> ws[i].sent[k] in ws[i].emitted || ws[i].sent[k].id <= ws[i].since
  {
    forall k | 0 <= k < i ensures GapFree(ws[k], acts[k]) {
      RunHeard(ws, acts, base, k);
      RunInv(ws, acts, k);
      HeardIsGapFree(ws[k], acts[k], base);
    }
    RunExact(ws, acts, i);
    RunHeard(ws, acts, base, i);
    RunInv(ws, acts, i);
    TakenIsEmitted(ws[i], base);
  }

  lemma TakenIsEmitted(w: World, base: nat)
    requires w.pos <= |w.sent| && Inv(w) && InOrder(w, base) && Heard(w, base) && Exact(w)
    ensures w.pc.Live? ==> forall k :: 0 <= k < w.pos ==> w.sent[k] in w.emitted || w.sent[k].id <= w.since
  {
    if w.pc.Live? {
      forall k | 0 <= k < w.pos ensures w.sent[k] in w.emitted || w.sent[k].id <= w.since {
        assert w.sent[k] == w.journal[base + k];
        BetweenMembers(w.journal, w.since, w.lastSent);
      }
    }
  }

  function ReorderedActs(a: JournaledEvent, b: JournaledEvent): seq<Action> {
    [Query(true), Replay, AppendEntry(a), AppendEntry(b), Broadcast(b), Receive, Broadcast(a), Receive]
  }

  function ReorderedRun(a: JournaledEvent, b: JournaledEvent): seq<World> {
    [World([], [], 0, 0, 0, [], Querying), World([], [], 0, 0, 0, [], Replaying([])), World([], [], 0, 0, 0, [], Live),
     World([a], [], 0, 0, 0, [], Live), World([a, b], [], 0, 0, 0, [], Live), World([a, b], [b], 0, 0, 0, [], Live),
     World([a, b], [b], 1, 0, b.id, [b], Live), World([a, b], [b, a], 1, 0, b.id, [b], Live),
     World([a, b], [b, a], 2, 0, b.id, [b], Live)]
  }

  lemma ReorderedBegins(a: JournaledEvent, b: JournaledEvent, i: nat)
    requires 0 < a.id < b.id && i < 4
    ensures var ws, acts := ReorderedRun(a, b), ReorderedActs(a, b);
            Enabled(ws[i], acts[i]) && ws[i + 1] == Apply(ws[i], acts[i])
  {
  }

  lemma ReorderedEnds(a: JournaledEvent, b: JournaledEvent, i: nat)
    requires 0 < a.id < b.id && 4 <= i < 8
    ensures var ws, acts := ReorderedRun(a, b), ReorderedActs(a, b);
            Enabled(ws[i], acts[i]) && ws[i + 1] == Apply(ws[i], acts[i])
  {
  }

  /** A broadcast out of journal order is lost to the stream: the later entry arrives first
      and the earlier one is then skipped. */
  lemma OutOfOrderIsLost(a: JournaledEvent, b: JournaledEvent)
    requires 0 < a.id < b.id
    ensures var ws, acts := ReorderedRun(a, b), ReorderedActs(a, b);
            IsRun(ws, acts) && ws[8].emitted == [b] && Missed(ws[8], a) && !Exact(ws[8])
  {
    var ws, acts := ReorderedRun(a, b), ReorderedActs(a, b);
    forall i | 0 <= i < 8 ensures Enabled(ws[i], acts[i]) && ws[i + 1] == Apply(ws[i], acts[i]) {
      if i < 4 { ReorderedBegins(a, b, i); } else { ReorderedEnds(a, b, i); }
    }
    MissedIsInexact(ws[8], a);
  }
}
