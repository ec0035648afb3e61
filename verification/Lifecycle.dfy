/** The word of journal letters each outbound message spells, and its agreement with the table. */
module Lifecycle {
  import opened Wrappers
  import opened Model
  import opened Journal
  import opened Tables

  datatype Letter = QueuedLetter | SentLetter | FailedLetter | StatusLetter(status: Status)

  function LetterOf(event: Event): Letter
    requires event.event != ReceivedEvent
  {
    match event.event
    case QueuedEvent => QueuedLetter
    case SentEvent => SentLetter
    case FailedEvent => FailedLetter
    case StatusEvent => StatusLetter(if event.status.Some? then event.status.value else Other(""))
  }

  predicate About(event: Event, id: string) {
    event.event != ReceivedEvent && event.messageId == id
  }

  /** The outbound events of one message, in journal order. */
  function Word(events: seq<JournaledEvent>, id: string): seq<Letter> {
    if events == [] then []
    else
      var last := events[|events| - 1].event;
      Word(events[..|events| - 1], id) + if About(last, id) then [LetterOf(last)] else []
  }

  lemma WordAppend(events: seq<JournaledEvent>, entry: JournaledEvent, id: string)
    ensures Word(events + [entry], id)
         == Word(events, id) + if About(entry.event, id) then [LetterOf(entry.event)] else []
  {
  }

  // The grammar, as an automaton

  datatype Phase = Unborn | Taken | Handed | Lost | Live(status: Status)

  predicate Observable(status: Status) {
    status == Sent || status == Delivered || status == Read
  }

  function Delta(phase: Phase, letter: Letter): Option<Phase> {
    match (phase, letter)
    case (Unborn, QueuedLetter) => Some(Taken)
    case (Taken, FailedLetter) => Some(Lost)
    case (Taken, SentLetter) => Some(Handed)
    case (Taken, StatusLetter(status)) => if status == Sent then Some(Live(Sent)) else None
    case (Handed, StatusLetter(status)) => if status == Sent then Some(Live(Sent)) else None
    case (Live(before), StatusLetter(status)) =>
      if Observable(status) && Rank(status) > Rank(before) then Some(Live(status)) else None
    case _ => None
  }

  function PhaseOf(word: seq<Letter>): Option<Phase> {
    if word == [] then Some(Unborn)
    else
      match PhaseOf(word[..|word| - 1])
      case None => None
      case Some(phase) => Delta(phase, word[|word| - 1])
  }

  lemma PhaseAppend(word: seq<Letter>, letter: Letter)
    ensures PhaseOf(word + [letter])
         == if PhaseOf(word).None? then None else Delta(PhaseOf(word).value, letter)
  {
  }

  // The grammar, spelled out

  /** Which optional letters a message has collected. */
  datatype Story = Dropped | Kept(handed: bool, bound: bool, delivered: bool, read: bool)

  function Maybe(present: bool, letter: Letter): seq<Letter> {
    if present then [letter] else []
  }

  /** queued, then failed; or queued, sent?, and then status sent, delivered?, read? or nothing. */
  function Spell(story: Story): seq<Letter> {
    match story
    case Dropped => [QueuedLetter, FailedLetter]
    case Kept(handed, bound, delivered, read) =>
      [QueuedLetter] + Maybe(handed, SentLetter)
      + if bound then [StatusLetter(Sent)] + Maybe(delivered, StatusLetter(Delivered))
                      + Maybe(read, StatusLetter(Read))
        else []
  }

  /** What the letters say about the message. */
  function StatusIn(story: Story): Status {
    match story
    case Dropped => Failed
    case Kept(_, bound, delivered, read) =>
      if !bound then Queued else if read then Read else if delivered then Delivered else Sent
  }

  predicate BoundIn(story: Story) {
    story.Kept? && story.bound
  }

  predicate Normal(story: Story) {
    story.Kept? && (story.delivered || story.read) ==> story.bound
  }

  function Grow(story: Story, letter: Letter): Story {
    match (story, letter)
    case (Kept(_, _, _, _), FailedLetter) => Dropped
    case (Kept(_, _, _, _), SentLetter) => story.(handed := true)
    case (Kept(_, _, delivered, read), StatusLetter(status)) =>
      story.(bound := true, delivered := delivered || status == Delivered, read := read || status == Read)
    case _ => story
  }

  /** The phase of a message and its story say the same. */
  predicate Tells(story: Story, phase: Phase) {
    Normal(story)
    && match phase
       case Unborn => false
       case Taken => story == Kept(false, false, false, false)
       case Handed => story == Kept(true, false, false, false)
       case Lost => story == Dropped
       case Live(status) => BoundIn(story) && StatusIn(story) == status
  }

  lemma SpellGrows(story: Story, phase: Phase, letter: Letter)
    requires Tells(story, phase) && Delta(phase, letter).Some?
    ensures Spell(Grow(story, letter)) == Spell(story) + [letter]
    ensures Tells(Grow(story, letter), Delta(phase, letter).value)
  {
  }

  /** Every word the automaton reads has the spelled-out form, and the phase retells it. */
  lemma {:induction false} PhaseSpells(word: seq<Letter>) returns (story: Story)
    requires PhaseOf(word).Some? && PhaseOf(word) != Some(Unborn)
    ensures word == Spell(story) && Tells(story, PhaseOf(word).value)
  {
    var init, letter := word[..|word| - 1], word[|word| - 1];
    assert word == init + [letter];
    if PhaseOf(init) == Some(Unborn) {
      UnbornIsEmpty(init);
      story := Kept(false, false, false, false);
    } else {
      var before := PhaseSpells(init);
      SpellGrows(before, PhaseOf(init).value, letter);
      story := Grow(before, letter);
    }
  }

  lemma {:induction false} UnbornIsEmpty(word: seq<Letter>)
    requires PhaseOf(word) == Some(Unborn)
    ensures word == []
  {
  }

  // Agreement of the table with the journal

  predicate Matches(row: OutboundRow, phase: Phase) {
    match phase
    case Unborn => false
    case Taken => (row.dispatchState == Waiting || row.dispatchState == Dispatching)
                     && row.lastStatus == Queued && row.guid.None?
    case Handed => row.dispatchState == SentUnbound && row.lastStatus == Queued && row.guid.None?
    case Lost => row.dispatchState == Refused && row.lastStatus == Failed && row.guid.None?
    case Live(status) => row.dispatchState == Bound && row.lastStatus == status
                          && Observable(status) && row.guid.Some?
  }

  ghost predicate DistinctIds(rows: seq<OutboundRow>) {
    forall i, j :: 0 <= i < j < |rows| ==> rows[i].messageId != rows[j].messageId
  }

  ghost predicate DistinctGuids(rows: seq<OutboundRow>) {
    forall i, j :: 0 <= i < j < |rows| && rows[i].guid.Some? ==> rows[i].guid != rows[j].guid
  }

  function PhaseIn(events: seq<JournaledEvent>, id: string): Option<Phase> {
    PhaseOf(Word(events, id))
  }

  lemma EntryMoves(events: seq<JournaledEvent>, entry: JournaledEvent, id: string)
    ensures PhaseIn(events + [entry], id)
         == if !About(entry.event, id) then PhaseIn(events, id)
            else if PhaseIn(events, id).None? then None
            else Delta(PhaseIn(events, id).value, LetterOf(entry.event))
    ensures !About(entry.event, id) ==> Word(events + [entry], id) == Word(events, id)
  {
    WordAppend(events, entry, id);
    if About(entry.event, id) {
      PhaseAppend(Word(events, id), LetterOf(entry.event));
    } else {
      assert Word(events, id) + [] == Word(events, id);
    }
  }

  ghost predicate RowAgrees(row: OutboundRow, events: seq<JournaledEvent>) {
    var phase := PhaseIn(events, row.messageId);
    phase.Some? && Matches(row, phase.value)
  }

  ghost predicate Agrees(db: Db) {
    forall i :: 0 <= i < |db.outbound| ==> RowAgrees(db.outbound[i], db.events)
  }

  /** Messages without a row have no outbound events. */
  ghost predicate NoOrphans(db: Db) {
    forall id :: Find(db.outbound, id) == |db.outbound| ==> Word(db.events, id) == []
  }

  ghost predicate Sound(db: Db) {
    DistinctIds(db.outbound) && DistinctGuids(db.outbound) && Agrees(db) && NoOrphans(db)
  }

  ghost predicate FreshGuid(db: Db, guid: string) {
    forall i :: 0 <= i < |db.outbound| ==> db.outbound[i].guid != Some(guid)
  }

  lemma FindAt(rows: seq<OutboundRow>, i: nat)
    requires DistinctIds(rows) && i < |rows|
    ensures Find(rows, rows[i].messageId) == i
  {
  }

  lemma FindGuidAt(rows: seq<OutboundRow>, i: nat)
    requires DistinctGuids(rows) && i < |rows| && rows[i].guid.Some?
    ensures FindGuid(rows, rows[i].guid.value) == i
  {
  }

  lemma FindGuidIs(rows: seq<OutboundRow>, guid: string, i: nat)
    requires i < |rows| && rows[i].guid == Some(guid)
    requires forall j :: 0 <= j < i ==> rows[j].guid != Some(guid)
    ensures FindGuid(rows, guid) == i
  {
  }

  lemma FindSame(rows: seq<OutboundRow>, rows': seq<OutboundRow>, id: string)
    requires |rows| == |rows'| && forall i :: 0 <= i < |rows| ==> rows[i].messageId == rows'[i].messageId
    ensures Find(rows, id) == Find(rows', id)
  {
  }

  /** One row takes a step and journals the matching letter; everything else stays. */
  lemma StepRow(db: Db, i: nat, row: OutboundRow, event: Event, now: string)
    requires Sound(db) && i < |db.outbound|
    requires row.messageId == db.outbound[i].messageId && About(event, row.messageId)
    requires row.guid != db.outbound[i].guid ==> row.guid.Some? && FreshGuid(db, row.guid.value)
    requires var phase := PhaseIn(db.events, row.messageId);
             phase.Some? && Delta(phase.value, LetterOf(event)).Some?
             && Matches(row, Delta(phase.value, LetterOf(event)).value)
    ensures Sound(Journaled(db.(outbound := db.outbound[i := row]), event, now))
  {
    var db' := Journaled(db.(outbound := db.outbound[i := row]), event, now);
    var entry := db'.events[|db.events|];
    forall j | 0 <= j < |db'.outbound| ensures RowAgrees(db'.outbound[j], db'.events) {
      EntryMoves(db.events, entry, db'.outbound[j].messageId);
      assert RowAgrees(db.outbound[j], db.events);
    }
    StepOrphans(db, i, row, entry);
  }

  lemma StepOrphans(db: Db, i: nat, row: OutboundRow, entry: JournaledEvent)
    requires NoOrphans(db) && i < |db.outbound| && row.messageId == db.outbound[i].messageId
    requires About(entry.event, row.messageId)
    ensures NoOrphans(db.(outbound := db.outbound[i := row], events := db.events + [entry]))
  {
    var rows := db.outbound[i := row];
    forall id | Find(rows, id) == |rows| ensures Word(db.events + [entry], id) == [] {
      EntryMoves(db.events, entry, id);
      FindSame(db.outbound, rows, id);
      assert db.outbound[i].messageId != id;
    }
  }

  /** A row changes without a journal entry and stays in its phase. */
  lemma QuietRow(db: Db, i: nat, row: OutboundRow)
    requires Sound(db) && i < |db.outbound|
    requires row.messageId == db.outbound[i].messageId && row.guid == db.outbound[i].guid
    requires RowAgrees(row, db.events)
    ensures Sound(db.(outbound := db.outbound[i := row]))
  {
    var db' := db.(outbound := db.outbound[i := row]);
    forall j | 0 <= j < |db'.outbound| ensures RowAgrees(db'.outbound[j], db'.events) {
      assert RowAgrees(db.outbound[j], db.events);
    }
    forall id | Find(db'.outbound, id) == |db'.outbound| ensures Word(db'.events, id) == [] {
      FindSame(db.outbound, db'.outbound, id);
    }
  }

  lemma InsertIsSound(db: Db, job: SendJob, now: string)
    requires Sound(db)
    ensures Sound(InsertSend(db, job, now).0)
  {
    var (db', r) := InsertSend(db, job, now);
    if r.Success? {
      var entry := db'.events[|db.events|];
      forall j | 0 <= j < |db'.outbound| ensures RowAgrees(db'.outbound[j], db'.events) {
        EntryMoves(db.events, entry, db'.outbound[j].messageId);
        if j < |db.outbound| {
          assert db'.outbound[j] == db.outbound[j] && RowAgrees(db.outbound[j], db.events);
        }
      }
      forall id | Find(db'.outbound, id) == |db'.outbound| ensures Word(db'.events, id) == [] {
        EntryMoves(db.events, entry, id);
        assert db'.outbound[|db.outbound|].messageId == job.messageId;
        FindPrefix(db.outbound, db'.outbound, id);
      }
    }
  }

  lemma FindPrefix(rows: seq<OutboundRow>, rows': seq<OutboundRow>, id: string)
    requires rows <= rows' && Find(rows', id) == |rows'|
    ensures Find(rows, id) == |rows|
  {
  }

  /** An inbound journal entry says nothing about outbound messages. */
  lemma InboundIsSound(db: Db, event: Event, now: string)
    requires Sound(db) && event.event == ReceivedEvent
    ensures Sound(Journaled(db, event, now))
  {
    var db' := Journaled(db, event, now);
    forall id ensures Word(db'.events, id) == Word(db.events, id) {
      EntryMoves(db.events, db'.events[|db.events|], id);
    }
    forall j | 0 <= j < |db'.outbound| ensures RowAgrees(db'.outbound[j], db'.events) {
      assert RowAgrees(db.outbound[j], db.events);
    }
  }

  lemma AdvanceIsSound(db: Db, guid: string, status: Status, timestamp: string, now: string)
    requires Sound(db) && Observable(status)
    ensures Sound(AdvanceStatus(db, guid, status, timestamp, now).0)
  {
    var i := FindGuid(db.outbound, guid);
    if i < |db.outbound| && Rank(status) > Rank(db.outbound[i].lastStatus) {
      assert RowAgrees(db.outbound[i], db.events);
      var row := db.outbound[i].(lastStatus := status);
      assert SetStatus(db.outbound, guid, status) == db.outbound[i := row];
      StepRow(db, i, row, StatusEventOf(db.outbound[i], status, timestamp), now);
    }
  }

  lemma BindIsSound(db: Db, id: string, rowid: int, guid: string, chatId: Option<string>, now: string)
    requires Sound(db) && FreshGuid(db, guid)
    requires var i := Find(db.outbound, id); i < |db.outbound| ==> InFlight(db.outbound[i].dispatchState)
    ensures Sound(BindAndRecordSent(db, id, rowid, guid, chatId, now).0)
  {
    var i := Find(db.outbound, id);
    if i < |db.outbound| && db.outbound[i].guid.None? {
      assert RowAgrees(db.outbound[i], db.events);
      var row := db.outbound[i].(guid := Some(guid), rowid := Some(rowid), chatId := chatId,
                                 lastStatus := Sent, dispatchState := Bound);
      var rows := db.outbound[i := row];
      FindGuidIs(rows, guid, i);
      StepRow(db, i, row, StatusEventOf(row, Sent, now), now);
    }
  }

  // Status convergence

  datatype Observation = Observation(status: Status, timestamp: string, now: string)

  function ObserveAll(db: Db, guid: string, seen: seq<Observation>): Db {
    if seen == [] then db
    else
      var o := seen[|seen| - 1];
      AdvanceStatus(ObserveAll(db, guid, seen[..|seen| - 1]), guid, o.status, o.timestamp, o.now).0
  }

  function Higher(a: Status, b: Status): Status {
    if Rank(b) > Rank(a) then b else a
  }

  /** The greatest status by rank, starting from `from`. */
  function Highest(from: Status, seen: seq<Observation>): Status {
    if seen == [] then from
    else Higher(Highest(from, seen[..|seen| - 1]), seen[|seen| - 1].status)
  }

  /** The observations that exceed everything before them. */
  function Records(from: Status, seen: seq<Observation>): seq<Letter> {
    if seen == [] then []
    else
      var init, o := seen[..|seen| - 1], seen[|seen| - 1];
      Records(from, init) + if Rank(o.status) > Rank(Highest(from, init)) then [StatusLetter(o.status)] else []
  }

  lemma {:induction false} ObservationsAreSound(db: Db, guid: string, seen: seq<Observation>)
    requires Sound(db) && forall k :: 0 <= k < |seen| ==> Observable(seen[k].status)
    ensures Sound(ObserveAll(db, guid, seen))
  {
    if seen != [] {
      var init, o := seen[..|seen| - 1], seen[|seen| - 1];
      ObservationsAreSound(db, guid, init);
      AdvanceIsSound(ObserveAll(db, guid, init), guid, o.status, o.timestamp, o.now);
    }
  }

  lemma {:induction false} ObservedTable(db: Db, i: nat, seen: seq<Observation>)
    requires DistinctGuids(db.outbound) && i < |db.outbound| && db.outbound[i].guid.Some?
    ensures var row := db.outbound[i];
            ObserveAll(db, row.guid.value, seen).outbound
            == db.outbound[i := row.(lastStatus := Highest(row.lastStatus, seen))]
  {
    var row := db.outbound[i];
    if seen == [] {
      assert db.outbound[i := row] == db.outbound;
    } else {
      ObservedTable(db, i, seen[..|seen| - 1]);
      var mid := ObserveAll(db, row.guid.value, seen[..|seen| - 1]);
      AdvanceAt(mid, i, seen[|seen| - 1]);
      var end := row.(lastStatus := Highest(row.lastStatus, seen));
      assert mid.outbound[i := end] == db.outbound[i := end];
    }
  }

  lemma {:induction false} ObservedWord(db: Db, i: nat, seen: seq<Observation>)
    requires DistinctGuids(db.outbound) && i < |db.outbound| && db.outbound[i].guid.Some?
    ensures var row := db.outbound[i];
            Word(ObserveAll(db, row.guid.value, seen).events, row.messageId)
            == Word(db.events, row.messageId) + Records(row.lastStatus, seen)
  {
    var row := db.outbound[i];
    if seen == [] {
      assert Word(db.events, row.messageId) + [] == Word(db.events, row.messageId);
    } else {
      var init, o := seen[..|seen| - 1], seen[|seen| - 1];
      ObservedTable(db, i, init);
      ObservedWord(db, i, init);
      var mid := ObserveAll(db, row.guid.value, init);
      AdvanceAt(mid, i, o);
      var gained := if Rank(o.status) > Rank(Highest(row.lastStatus, init)) then [StatusLetter(o.status)] else [];
      Associates(Word(db.events, row.messageId), Records(row.lastStatus, init), gained);
    }
  }

  /** Whatever the order and repetition of the observations of a bound message, the journal
      gains exactly the running records and the row ends at the highest status. */
  lemma StatusConverges(db: Db, i: nat, seen: seq<Observation>)
    requires DistinctGuids(db.outbound) && i < |db.outbound| && db.outbound[i].guid.Some?
    ensures var row := db.outbound[i];
            var db' := ObserveAll(db, row.guid.value, seen);
            && db'.outbound == db.outbound[i := row.(lastStatus := Highest(row.lastStatus, seen))]
            && Word(db'.events, row.messageId) == Word(db.events, row.messageId) + Records(row.lastStatus, seen)
  {
    ObservedTable(db, i, seen);
    ObservedWord(db, i, seen);
  }

  lemma Associates(a: seq<Letter>, b: seq<Letter>, c: seq<Letter>)
    ensures (a + b) + c == a + (b + c)
  {
  }

  lemma AdvanceAt(db: Db, i: nat, o: Observation)
    requires DistinctGuids(db.outbound) && i < |db.outbound| && db.outbound[i].guid.Some?
    ensures var row := db.outbound[i];
            var db' := AdvanceStatus(db, row.guid.value, o.status, o.timestamp, o.now).0;
            var moved := Rank(o.status) > Rank(row.lastStatus);
            && db'.outbound == db.outbound[i := row.(lastStatus := Higher(row.lastStatus, o.status))]
            && Word(db'.events, row.messageId)
               == Word(db.events, row.messageId) + if moved then [StatusLetter(o.status)] else []
  {
    var row := db.outbound[i];
    FindGuidAt(db.outbound, i);
    if Rank(o.status) > Rank(row.lastStatus) {
      var db' := AdvanceStatus(db, row.guid.value, o.status, o.timestamp, o.now).0;
      WordAppend(db.events, db'.events[|db.events|], row.messageId);
      assert db'.outbound == db.outbound[i := row.(lastStatus := o.status)];
    } else {
      assert Word(db.events, row.messageId) + [] == Word(db.events, row.messageId);
    }
  }

  lemma {:induction false} HighestIsMaximum(from: Status, seen: seq<Observation>)
    ensures var top := Highest(from, seen);
            && (top == from || exists k :: 0 <= k < |seen| && seen[k].status == top)
            && Rank(from) <= Rank(top)
            && forall k :: 0 <= k < |seen| ==> Rank(seen[k].status) <= Rank(top)
  {
    if seen != [] {
      HighestIsMaximum(from, seen[..|seen| - 1]);
      var k := |seen| - 1;
      assert seen[k].status == seen[|seen| - 1].status;
    }
  }

  /** The final status does not depend on the order of the observations. */
  lemma HighestIgnoresOrder(from: Status, a: seq<Observation>, b: seq<Observation>)
    requires Observable(from) && multiset(a) == multiset(b)
    requires forall k :: 0 <= k < |a| ==> Observable(a[k].status)
    ensures Highest(from, a) == Highest(from, b)
  {
    HighestAbove(from, a, b);
    HighestAbove(from, b, a);
    RankInjective(Highest(from, a), Highest(from, b));
  }

  lemma RankInjective(s: Status, t: Status)
    requires Observable(s) && Observable(t) && Rank(s) == Rank(t)
    ensures s == t
  {
  }

  lemma HighestAbove(from: Status, a: seq<Observation>, b: seq<Observation>)
    requires Observable(from) && multiset(a) == multiset(b)
    requires forall k :: 0 <= k < |a| ==> Observable(a[k].status)
    ensures Rank(Highest(from, a)) <= Rank(Highest(from, b)) && Observable(Highest(from, a))
    ensures forall k :: 0 <= k < |b| ==> Observable(b[k].status)
  {
    HighestIsMaximum(from, a);
    HighestIsMaximum(from, b);
    forall k | 0 <= k < |b| ensures Observable(b[k].status) {
      assert b[k] in multiset(a);
      assert b[k] in a;
    }
    if Highest(from, a) != from {
      var k :| 0 <= k < |a| && a[k].status == Highest(from, a);
      assert a[k] in multiset(b);
      assert a[k] in b;
    }
  }

  // Guids held twice

  /** From a sound table, binding a message in flight leaves every later observation of the
      guid in agreement with the journal exactly when no row holds the guid yet. */
  lemma FreshGuidExactly(db: Db, i: nat, rowid: int, guid: string, chatId: Option<string>, now: string)
    requires Sound(db) && i < |db.outbound| && InFlight(db.outbound[i].dispatchState)
    ensures var bound := BindAndRecordSent(db, db.outbound[i].messageId, rowid, guid, chatId, now).0;
            (Agrees(bound) && forall status | Observable(status) ::
                                Agrees(AdvanceStatus(bound, guid, status, now, now).0))
            <==> FreshGuid(db, guid)
  {
    var id := db.outbound[i].messageId;
    FindAt(db.outbound, i);
    var bound := BindAndRecordSent(db, id, rowid, guid, chatId, now).0;
    assert RowAgrees(db.outbound[i], db.events);
    if FreshGuid(db, guid) {
      BindIsSound(db, id, rowid, guid, chatId, now);
      forall status | Observable(status) ensures Agrees(AdvanceStatus(bound, guid, status, now, now).0) {
        AdvanceIsSound(bound, guid, status, now, now);
      }
    } else {
      var j :| 0 <= j < |db.outbound| && db.outbound[j].guid == Some(guid);
      assert RowAgrees(db.outbound[j], db.events);
      if j < i {
        SharedGuidBreaksBind(db, i, j, rowid, guid, chatId, now);
      } else {
        SharedGuidBreaksAdvance(db, i, j, rowid, guid, chatId, now);
      }
    }
  }

  /** The older row holds the guid: the binding is journaled for the wrong message. */
  lemma SharedGuidBreaksBind(db: Db, i: nat, j: nat, rowid: int, guid: string, chatId: Option<string>, now: string)
    requires Sound(db) && j < i < |db.outbound| && InFlight(db.outbound[i].dispatchState)
    requires db.outbound[j].guid == Some(guid)
    ensures !Agrees(BindAndRecordSent(db, db.outbound[i].messageId, rowid, guid, chatId, now).0)
  {
    var id := db.outbound[i].messageId;
    FindAt(db.outbound, i);
    assert RowAgrees(db.outbound[i], db.events);
    var bound := BindAndRecordSent(db, id, rowid, guid, chatId, now).0;
    FindGuidIs(bound.outbound, guid, j);
    EntryMoves(db.events, bound.events[|db.events|], id);
    assert !RowAgrees(bound.outbound[i], bound.events);
  }

  /** The newer row holds the guid: some later observation moves it without a journal entry. */
  lemma SharedGuidBreaksAdvance(db: Db, i: nat, j: nat, rowid: int, guid: string, chatId: Option<string>, now: string)
    requires Sound(db) && i < j < |db.outbound| && InFlight(db.outbound[i].dispatchState)
    requires db.outbound[j].guid == Some(guid)
    ensures var bound := BindAndRecordSent(db, db.outbound[i].messageId, rowid, guid, chatId, now).0;
            var status := if db.outbound[j].lastStatus == Read then Delivered else Read;
            Observable(status) && !Agrees(AdvanceStatus(bound, guid, status, now, now).0)
  {
    FindAt(db.outbound, i);
    assert RowAgrees(db.outbound[i], db.events) && RowAgrees(db.outbound[j], db.events);
    var bound := BindAndRecordSent(db, db.outbound[i].messageId, rowid, guid, chatId, now).0;
    BindsBefore(db, i, j, rowid, guid, chatId, now);
    var status := if db.outbound[j].lastStatus == Read then Delivered else Read;
    MovesSilently(bound, i, j, guid, status, now);
  }

  lemma BindsBefore(db: Db, i: nat, j: nat, rowid: int, guid: string, chatId: Option<string>, now: string)
    requires DistinctIds(db.outbound) && DistinctGuids(db.outbound) && i < j < |db.outbound|
    requires Find(db.outbound, db.outbound[i].messageId) == i && db.outbound[i].guid.None?
    requires db.outbound[j].guid == Some(guid) && RowAgrees(db.outbound[j], db.events)
    ensures var bound := BindAndRecordSent(db, db.outbound[i].messageId, rowid, guid, chatId, now).0;
            |bound.outbound| == |db.outbound| && FindGuid(bound.outbound, guid) == i
            && bound.outbound[i].lastStatus == Sent && bound.outbound[i].messageId == db.outbound[i].messageId
            && bound.outbound[j] == db.outbound[j] && RowAgrees(bound.outbound[j], bound.events)
  {
    var bound := BindAndRecordSent(db, db.outbound[i].messageId, rowid, guid, chatId, now).0;
    FindGuidIs(bound.outbound, guid, i);
    EntryMoves(db.events, bound.events[|db.events|], db.outbound[j].messageId);
  }

  lemma MovesSilently(db: Db, i: nat, j: nat, guid: string, status: Status, now: string)
    requires i < |db.outbound| && j < |db.outbound| && FindGuid(db.outbound, guid) == i != j
    requires db.outbound[i].messageId != db.outbound[j].messageId
    requires db.outbound[j].guid == Some(guid) && RowAgrees(db.outbound[j], db.events)
    requires Rank(status) > Rank(db.outbound[i].lastStatus) && status != db.outbound[j].lastStatus
    ensures !Agrees(AdvanceStatus(db, guid, status, now, now).0)
  {
    var moved := AdvanceStatus(db, guid, status, now, now).0;
    EntryMoves(db.events, moved.events[|db.events|], db.outbound[j].messageId);
    assert moved.outbound[j].lastStatus == status;
    assert !RowAgrees(moved.outbound[j], moved.events);
  }
}
