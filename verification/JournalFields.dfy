/** What the journal entries of a message say, and what a bound row holds, over all runs. */
module JournalFields {
  import opened Wrappers
  import opened Model
  import opened Fingerprint
  import opened Journal
  import opened Tables
  import opened Lifecycle
  import opened Resolver
  import opened Outbound
  import opened Watermark
  import JournalRuns

  /** The address of the command: a handle or a chat, never both. */
  predicate Addressed(e: Event, target: SendTarget) {
    match target
    case Handle(to) => e.handle == Some(to) && e.chatId == None
    case Chat(id) => e.handle == None && e.chatId == Some(id)
  }

  /** The handle a status entry shows: that of a handle send, unless it stands for a chat. */
  predicate ShowsHandle(e: Event, target: SendTarget) {
    match target
    case Handle(to) => e.handle == if "any;" <= to then None else Some(to)
    case Chat(_) => e.handle == None
  }

  /** An entry about the message of a row, accepted as `job`: always its id, client_ref and
      protocol; the text when it is queued, the reason when it failed, and the provider id, the
      chat and the status once it is bound. */
  predicate Carries(e: Event, job: SendJob, row: OutboundRow) {
    && e.messageId == row.messageId == job.messageId && e.clientRef == job.clientRef && e.protocol == Some(job.protocol)
    && match e.event
       case QueuedEvent =>
         Addressed(e, job.target) && e.text == Some(job.text) && e.status == Some(Queued)
         && e.providerMessageId == None && e.reason == None
       case SentEvent =>
         Addressed(e, job.target) && e.text == None && e.status == None && e.providerMessageId == None && e.reason == None
       case FailedEvent =>
         Addressed(e, job.target) && e.text == None && e.status == None && e.providerMessageId == None && e.reason.Some?
       case StatusEvent =>
         ShowsHandle(e, job.target) && e.chatId == row.chatId && e.text == None && e.status.Some?
         && row.guid.Some? && e.providerMessageId == row.guid && e.reason == None
       case ReceivedEvent => false
  }

  /** The entry came in from outside, or is about a row of the table. */
  ghost predicate Told(rows: seq<OutboundRow>, e: Event) {
    e.event == ReceivedEvent || exists k :: 0 <= k < |rows| && Describes(rows[k], e)
  }

  predicate Describes(row: OutboundRow, e: Event) {
    JobOf(row).Some? && Carries(e, JobOf(row).value, row)
  }

  ghost predicate FieldsInv(db: Db) {
    (forall k :: 0 <= k < |db.outbound| ==> db.outbound[k].targetValue == Some(db.outbound[k].handle))
    && forall n :: 0 <= n < |db.events| ==> Told(db.outbound, db.events[n].event)
  }

  /** A binding is for good. */
  predicate KeepsBinding(row: OutboundRow, row': OutboundRow) {
    Evolves(row, row')
    && (row.guid.Some? ==> row'.guid == row.guid && row'.chatId == row.chatId && row'.rowid == row.rowid)
  }

  ghost predicate RowsKeep(rows: seq<OutboundRow>, rows': seq<OutboundRow>) {
    |rows| <= |rows'| && forall k :: 0 <= k < |rows| ==> KeepsBinding(rows[k], rows'[k])
  }

  lemma AboutStays(row: OutboundRow, row': OutboundRow, e: Event)
    requires KeepsBinding(row, row') && Describes(row, e)
    ensures Describes(row', e)
  {
    JobStays(row, row');
  }

  lemma ToldStays(rows: seq<OutboundRow>, rows': seq<OutboundRow>, e: Event)
    requires RowsKeep(rows, rows') && Told(rows, e)
    ensures Told(rows', e)
  {
    if e.event != ReceivedEvent {
      var k :| 0 <= k < |rows| && Describes(rows[k], e);
      AboutStays(rows[k], rows'[k], e);
    }
  }

  lemma AcceptKeeps(sha: Digest, db: Db, job: SendJob, now: string)
    ensures RowsKeep(db.outbound, Accept(sha, db, job, now).0.outbound)
  {
  }

  lemma BindKeeps(db: Db, id: string, rowid: int, guid: string, chatId: Option<string>, now: string)
    ensures RowsKeep(db.outbound, BindAndRecordSent(db, id, rowid, guid, chatId, now).0.outbound)
  {
  }

  lemma AdvanceKeeps(db: Db, guid: string, status: Status, timestamp: string, now: string)
    ensures RowsKeep(db.outbound, AdvanceStatus(db, guid, status, timestamp, now).0.outbound)
  {
  }

  lemma RecordKeeps(db: Db, job: SendJob, reason: string, now: string)
    ensures RowsKeep(db.outbound, RecordSentAcceptance(db, job, now).outbound)
    ensures RowsKeep(db.outbound, RecordFailed(db, job, reason, now).outbound)
  {
  }

  lemma OthersKeep(sha: Digest, w: World, a: Action)
    requires Enabled(w, a) && !a.Request? && !a.RecordAcceptance? && !a.RecordFailure? && !a.Bind? && !a.Correlate?
    ensures RowsKeep(w.db.outbound, DbAfter(sha, w, a).outbound)
  {
  }

  lemma DbKeeps(sha: Digest, w: World, a: Action, db': Db)
    requires Enabled(w, a) && db' == DbAfter(sha, w, a)
    ensures RowsKeep(w.db.outbound, db'.outbound)
  {
    match a
    case Request(job, now) => AcceptKeeps(sha, w.db, job, now);
    case RecordAcceptance(_, now) => RecordKeeps(w.db, w.pc.job, "", now);
    case RecordFailure(_, now) => RecordKeeps(w.db, w.pc.job, w.pc.reason, now);
    case Bind(_, now) => BindKeeps(w.db, w.pc.todo[0].job.messageId, w.pc.row.rowid, w.pc.row.guid, w.pc.row.chatId, now);
    case Correlate(_, now) => AdvanceKeeps(w.db, w.mail[0].guid, w.mail[0].status, w.mail[0].timestamp, now);
    case _ => OthersKeep(sha, w, a);
  }

  // The entry a step adds

  ghost predicate LastTold(events: seq<JournaledEvent>, db': Db) {
    db'.events == events || (|db'.events| > 0 && Told(db'.outbound, db'.events[|db'.events| - 1].event))
  }

  /** A status entry is about the row it was made from. */
  lemma StatusDescribes(row: OutboundRow, status: Status, timestamp: string)
    requires JobOf(row).Some? && row.guid.Some? && row.targetValue == Some(row.handle)
    ensures Describes(row, StatusEventOf(row, status, timestamp))
  {
    var job := JobOf(row).value;
    assert FromParts(row.targetKind.value, row.targetValue.value) == Some(job.target);
  }

  lemma BindTells(db: Db, id: string, rowid: int, guid: string, chatId: Option<string>, now: string, db': Db)
    requires TableOk(db.outbound) && FieldsInv(db) && db' == BindAndRecordSent(db, id, rowid, guid, chatId, now).0
    ensures LastTold(db.events, db')
  {
    var i := Find(db.outbound, id);
    if i < |db.outbound| && db.outbound[i].guid.None? {
      var k := FindGuid(db'.outbound, guid);
      assert db'.outbound[i].guid == Some(guid);
      assert WellFormedRow(db.outbound[k]);
      JobStays(db.outbound[k], db'.outbound[k]);
      StatusDescribes(db'.outbound[k], Sent, now);
    }
  }

  lemma AdvanceTells(db: Db, guid: string, status: Status, timestamp: string, now: string, db': Db)
    requires TableOk(db.outbound) && FieldsInv(db) && db' == AdvanceStatus(db, guid, status, timestamp, now).0
    ensures LastTold(db.events, db')
  {
    var k := FindGuid(db.outbound, guid);
    if db' != db {
      assert WellFormedRow(db.outbound[k]);
      StatusDescribes(db.outbound[k], status, timestamp);
      JobStays(db.outbound[k], db'.outbound[k]);
    }
  }

  lemma AcceptTells(sha: Digest, db: Db, job: SendJob, now: string, db': Db)
    requires db' == Accept(sha, db, job, now).0
    ensures LastTold(db.events, db')
  {
    NewRowDecodes(job, now);
    if db'.events != db.events {
      assert db'.outbound[|db.outbound|] == NewRow(job, now);
      assert Describes(NewRow(job, now), QueuedEventOf(job, now));
    }
  }

  lemma RecordTells(db: Db, job: SendJob, reason: string, now: string)
    requires HasState(db.outbound, job, Dispatching)
    ensures Told(RecordSentAcceptance(db, job, now).outbound, JobEvent(SentEvent, job, now))
    ensures Told(RecordFailed(db, job, reason, now).outbound, JobEvent(FailedEvent, job, now).(reason := Some(reason)))
  {
    var i := Find(db.outbound, job.messageId);
    RecordKeeps(db, job, reason, now);
    JobStays(db.outbound[i], RecordSentAcceptance(db, job, now).outbound[i]);
    JobStays(db.outbound[i], RecordFailed(db, job, reason, now).outbound[i]);
    assert Describes(RecordSentAcceptance(db, job, now).outbound[i], JobEvent(SentEvent, job, now));
    assert Describes(RecordFailed(db, job, reason, now).outbound[i], JobEvent(FailedEvent, job, now).(reason := Some(reason)));
  }

  lemma StepTells(sha: Digest, w: World, a: Action, db': Db)
    requires Inv(w) && FieldsInv(w.db) && Enabled(w, a) && db' == DbAfter(sha, w, a)
    ensures LastTold(w.db.events, db')
  {
    match a
    case Request(job, now) => AcceptTells(sha, w.db, job, now, db');
    case RecordAcceptance(_, now) => AcceptanceTells(w, now);
    case RecordFailure(_, now) => FailureTells(w, now);
    case Bind(fault, now) =>
      var row := w.pc.row;
      if !fault { BindTells(w.db, w.pc.todo[0].job.messageId, row.rowid, row.guid, row.chatId, now, db'); }
    case Correlate(fault, now) =>
      if !fault { AdvanceTells(w.db, w.mail[0].guid, w.mail[0].status, w.mail[0].timestamp, now, db'); }
    case _ =>
  }

  lemma AcceptanceTells(w: World, now: string)
    requires Inv(w) && w.pc.SenderOk?
    ensures LastTold(w.db.events, RecordSentAcceptance(w.db, w.pc.job, now))
  {
    RecordTells(w.db, w.pc.job, "", now);
  }

  lemma FailureTells(w: World, now: string)
    requires Inv(w) && w.pc.SenderErr?
    ensures LastTold(w.db.events, RecordFailed(w.db, w.pc.job, w.pc.reason, now))
  {
    RecordTells(w.db, w.pc.job, w.pc.reason, now);
  }

  lemma AcceptHandles(sha: Digest, db: Db, job: SendJob, now: string, k: nat)
    requires k < |Accept(sha, db, job, now).0.outbound|
    ensures var row := Accept(sha, db, job, now).0.outbound[k];
            k >= |db.outbound| ==> row.targetValue == Some(row.handle)
  {
    AcceptAppends(sha, db, job, now, k);
  }

  lemma RowsGrow(sha: Digest, w: World, a: Action, db': Db, k: nat)
    requires Enabled(w, a) && db' == DbAfter(sha, w, a) && |w.db.outbound| <= k < |db'.outbound|
    ensures db'.outbound[k].targetValue == Some(db'.outbound[k].handle)
  {
    if a.Request? { AcceptHandles(sha, w.db, a.job, a.now, k); }
  }

  lemma StepFields(sha: Digest, w: World, a: Action, db': Db)
    requires Inv(w) && FieldsInv(w.db) && Enabled(w, a) && db' == DbAfter(sha, w, a)
    requires db'.events == w.db.events
             || (|db'.events| == |w.db.events| + 1 && db'.events == w.db.events + [db'.events[|w.db.events|]])
    ensures FieldsInv(db')
  {
    DbKeeps(sha, w, a, db');
    StepTells(sha, w, a, db');
    forall n | 0 <= n < |db'.events| ensures Told(db'.outbound, db'.events[n].event) {
      if n < |w.db.events| {
        assert Told(w.db.outbound, w.db.events[n].event);
        ToldStays(w.db.outbound, db'.outbound, w.db.events[n].event);
      }
    }
    forall k | 0 <= k < |db'.outbound| ensures db'.outbound[k].targetValue == Some(db'.outbound[k].handle) {
      if k < |w.db.outbound| {
        assert KeepsBinding(w.db.outbound[k], db'.outbound[k]);
      } else {
        RowsGrow(sha, w, a, db', k);
      }
    }
  }

  lemma FieldsAt(sha: Digest, ws: seq<World>, acts: seq<Action>, i: nat)
    requires IsRun(sha, ws, acts) && i < |acts| && FieldsInv(ws[i].db)
    ensures FieldsInv(ws[i + 1].db) && RowsKeep(ws[i].db.outbound, ws[i + 1].db.outbound)
  {
    RunInv(sha, ws, acts, i);
    DbStep(sha, ws[i], acts[i]);
    JournalRuns.EventsGrow(sha, ws[i], acts[i]);
    StepFields(sha, ws[i], acts[i], ws[i + 1].db);
    DbKeeps(sha, ws[i], acts[i], ws[i + 1].db);
  }

  lemma InitialFields(w: World)
    requires Initial(w)
    ensures FieldsInv(w.db)
  {
  }

  lemma {:induction false} RunFields(sha: Digest, ws: seq<World>, acts: seq<Action>, i: nat)
    requires IsRun(sha, ws, acts) && i < |ws|
    ensures FieldsInv(ws[i].db)
  {
    if i == 0 {
      InitialFields(ws[0]);
    } else {
      RunFields(sha, ws, acts, i - 1);
      FieldsAt(sha, ws, acts, i - 1);
    }
  }

  /** In every reachable state every journal entry that did not come in from outside says, in
      each of its fields, what the row of its message and the command accepted for it hold. */
  lemma EntryCarries(sha: Digest, ws: seq<World>, acts: seq<Action>, i: nat, n: nat) returns (k: nat)
    requires IsRun(sha, ws, acts) && i < |ws| && n < |ws[i].db.events|
    requires ws[i].db.events[n].event.event != ReceivedEvent
    ensures k < |ws[i].db.outbound| && JobOf(ws[i].db.outbound[k]).Some?
    ensures Carries(ws[i].db.events[n].event, JobOf(ws[i].db.outbound[k]).value, ws[i].db.outbound[k])
  {
    RunFields(sha, ws, acts, i);
    var e := ws[i].db.events[n].event;
    assert Told(ws[i].db.outbound, e);
    k :| k < |ws[i].db.outbound| && Describes(ws[i].db.outbound[k], e);
  }

  /** An entry at the end of the journal, of one kind, stamped with the clock. */
  predicate Stamped(db: Db, db': Db, kind: EventKind, now: string) {
    |db'.events| == |db.events| + 1
    && var entry := db'.events[|db.events|];
       entry.id == NextId(db.events) && entry.installationId == db.installation && entry.createdAt == now
       && entry.event.event == kind
  }

  lemma AcceptStamps(sha: Digest, db: Db, job: SendJob, now: string, db': Db)
    requires db' == Accept(sha, db, job, now).0 && db'.events != db.events
    ensures Stamped(db, db', QueuedEvent, now) && db'.events[|db.events|].event.timestamp == now
  {
  }

  lemma BindStamps(db: Db, id: string, rowid: int, guid: string, chatId: Option<string>, now: string, db': Db)
    requires db' == BindAndRecordSent(db, id, rowid, guid, chatId, now).0 && db'.events != db.events
    ensures Stamped(db, db', StatusEvent, now)
    ensures var e := db'.events[|db.events|].event;
            e.timestamp == now && e.status == Some(Sent) && e.providerMessageId == Some(guid)
  {
    assert db'.outbound[Find(db.outbound, id)].guid == Some(guid);
  }

  lemma AdvanceStamps(db: Db, guid: string, status: Status, timestamp: string, now: string, db': Db)
    requires db' == AdvanceStatus(db, guid, status, timestamp, now).0 && db'.events != db.events
    ensures Stamped(db, db', StatusEvent, now)
    ensures var e := db'.events[|db.events|].event;
            e.timestamp == timestamp && e.status == Some(status) && e.providerMessageId == Some(guid)
  {
  }

  /** The entry a step adds has the next id and the clock of the step; a failure has the sender's
      reason, a binding the guid found, a status what the correlator was told. */
  lemma EntryOfStep(sha: Digest, w: World, a: Action, db': Db)
    requires Enabled(w, a) && db' == DbAfter(sha, w, a) && db'.events != w.db.events
    ensures match a
            case Request(_, now) => Stamped(w.db, db', QueuedEvent, now) && Newest(w, db').timestamp == now
            case RecordAcceptance(_, now) => Stamped(w.db, db', SentEvent, now) && Newest(w, db').timestamp == now
            case RecordFailure(_, now) =>
              Stamped(w.db, db', FailedEvent, now) && Newest(w, db').timestamp == now
              && Newest(w, db').reason == Some(w.pc.reason)
            case Bind(_, now) =>
              Stamped(w.db, db', StatusEvent, now) && Newest(w, db').timestamp == now
              && Newest(w, db').status == Some(Sent) && Newest(w, db').providerMessageId == Some(w.pc.row.guid)
            case Correlate(_, now) =>
              Stamped(w.db, db', StatusEvent, now) && Newest(w, db').timestamp == w.mail[0].timestamp
              && Newest(w, db').status == Some(w.mail[0].status) && Newest(w, db').providerMessageId == Some(w.mail[0].guid)
            case Inbound(event, now) => Stamped(w.db, db', ReceivedEvent, now) && Newest(w, db') == event
            case _ => false
  {
    match a
    case Request(job, now) => AcceptStamps(sha, w.db, job, now, db');
    case Bind(_, now) =>
      BindStamps(w.db, w.pc.todo[0].job.messageId, w.pc.row.rowid, w.pc.row.guid, w.pc.row.chatId, now, db');
    case Correlate(_, now) => AdvanceStamps(w.db, w.mail[0].guid, w.mail[0].status, w.mail[0].timestamp, now, db');
    case _ =>
  }

  /** The event in the place after those of the state. */
  function Newest(w: World, db': Db): Event
    requires |db'.events| > |w.db.events|
  {
    db'.events[|w.db.events|].event
  }

  // Where a binding comes from

  /** Only a binding gives a row a guid, and then all three: guid, ROWID and chat of the row found. */
  lemma OnlyBindBinds(sha: Digest, w: World, a: Action, db': Db, k: nat)
    requires Enabled(w, a) && db' == DbAfter(sha, w, a) && k < |db'.outbound| && db'.outbound[k].guid.Some?
    requires k < |w.db.outbound| ==> w.db.outbound[k].guid.None?
    ensures a.Bind? && db'.outbound[k].messageId == w.pc.todo[0].job.messageId
    ensures db'.outbound[k].guid == Some(w.pc.row.guid) && db'.outbound[k].rowid == Some(w.pc.row.rowid)
            && db'.outbound[k].chatId == w.pc.row.chatId
  {
    if a.Request? { AcceptAppends(sha, w.db, a.job, a.now, k); }
  }

  predicate Holds(row: OutboundRow, found: ResolvedRow) {
    row.guid == Some(found.guid) && row.rowid == Some(found.rowid) && row.chatId == found.chatId
  }

  predicate SameBinding(row: OutboundRow, row': OutboundRow) {
    row'.messageId == row.messageId && row'.guid == row.guid && row'.rowid == row.rowid && row'.chatId == row.chatId
  }

  /** A bound row was bound before, or is bound now to what the worker holds for its send. */
  predicate BoundFrom(w: World, w': World, k: nat)
    requires k < |w'.db.outbound|
  {
    var row := w'.db.outbound[k];
    row.guid.Some? ==>
      || (k < |w.db.outbound| && SameBinding(w.db.outbound[k], row))
      || (w.pc.Found? && w.pc.todo != [] && Holds(row, w.pc.row) && row.messageId == w.pc.todo[0].job.messageId)
  }

  /** What the worker holds it held before, or the resolver has just answered it. */
  predicate FoundFrom(w: World, a: Action, w': World) {
    w'.pc.Found? ==> w.pc == w'.pc || (a == Resolve(Some(w'.pc.row)) && w.pc == Resolving(w'.pc.todo))
  }

  predicate Traced(w: World, a: Action, w': World) {
    FoundFrom(w, a, w') && forall k :: 0 <= k < |w'.db.outbound| ==> BoundFrom(w, w', k)
  }

  lemma StepTraced(sha: Digest, w: World, a: Action, w': World)
    requires Enabled(w, a) && w' == Apply(sha, w, a)
    ensures Traced(w, a, w')
  {
    PcMoves(sha, w, a, w');
    DbStep(sha, w, a);
    DbKeeps(sha, w, a, w'.db);
    forall k | 0 <= k < |w'.db.outbound| ensures BoundFrom(w, w', k) {
      BoundStep(sha, w, a, w', k);
    }
  }

  lemma BoundStep(sha: Digest, w: World, a: Action, w': World, k: nat)
    requires Enabled(w, a) && w'.db == DbAfter(sha, w, a) && RowsKeep(w.db.outbound, w'.db.outbound)
    requires k < |w'.db.outbound|
    ensures BoundFrom(w, w', k)
  {
    if w'.db.outbound[k].guid.Some? {
      if k < |w.db.outbound| && w.db.outbound[k].guid.Some? {
        assert KeepsBinding(w.db.outbound[k], w'.db.outbound[k]);
      } else {
        OnlyBindBinds(sha, w, a, w'.db, k);
      }
    }
  }

  /** A run as far as bindings go. */
  ghost predicate Bindings(ws: seq<World>, acts: seq<Action>) {
    |ws| == |acts| + 1 && ws[0].db.outbound == [] && !ws[0].pc.Found?
    && forall i :: 0 <= i < |acts| ==> Traced(ws[i], acts[i], ws[i + 1])
  }

  lemma RunBindings(sha: Digest, ws: seq<World>, acts: seq<Action>)
    requires IsRun(sha, ws, acts)
    ensures Bindings(ws, acts)
  {
    forall i | 0 <= i < |acts| ensures Traced(ws[i], acts[i], ws[i + 1]) {
      StepTraced(sha, ws[i], acts[i], ws[i + 1]);
    }
  }

  lemma {:induction false} FoundByResolve(ws: seq<World>, acts: seq<Action>, i: nat) returns (j: nat)
    requires Bindings(ws, acts) && i < |ws| && ws[i].pc.Found?
    ensures j < i && acts[j] == Resolve(Some(ws[i].pc.row)) && ws[j].pc == Resolving(ws[i].pc.todo)
  {
    j := i - 1;
    assert Traced(ws[j], acts[j], ws[j + 1]);
    if ws[j].pc == ws[i].pc {
      j := FoundByResolve(ws, acts, j);
    }
  }

  lemma {:induction false} BoundByFound(ws: seq<World>, acts: seq<Action>, i: nat, k: nat) returns (j: nat)
    requires Bindings(ws, acts) && i < |ws| && k < |ws[i].db.outbound| && ws[i].db.outbound[k].guid.Some?
    ensures j < i && ws[j].pc.Found? && ws[j].pc.todo != [] && Holds(ws[i].db.outbound[k], ws[j].pc.row)
    ensures ws[j].pc.todo[0].job.messageId == ws[i].db.outbound[k].messageId
  {
    j := i - 1;
    assert Traced(ws[j], acts[j], ws[j + 1]);
    assert BoundFrom(ws[j], ws[j + 1], k);
    if k < |ws[j].db.outbound| && SameBinding(ws[j].db.outbound[k], ws[i].db.outbound[k]) {
      j := BoundByFound(ws, acts, j, k);
    }
  }

  /** Every bound row holds the guid, the ROWID and the chat of a chat.db row that the resolver
      answered for its own send. */
  lemma BoundAsResolved(sha: Digest, ws: seq<World>, acts: seq<Action>, i: nat, k: nat) returns (j: nat)
    requires IsRun(sha, ws, acts) && i < |ws| && k < |ws[i].db.outbound| && ws[i].db.outbound[k].guid.Some?
    ensures j < i && ws[j].pc.Resolving? && ws[j].pc.todo != []
    ensures ws[j].pc.todo[0].job.messageId == ws[i].db.outbound[k].messageId
    ensures acts[j].Resolve? && acts[j].found.Some? && Holds(ws[i].db.outbound[k], acts[j].found.value)
  {
    RunBindings(sha, ws, acts);
    j := ResolvedFor(ws, acts, i, k);
  }

  lemma ResolvedFor(ws: seq<World>, acts: seq<Action>, i: nat, k: nat) returns (j: nat)
    requires Bindings(ws, acts) && i < |ws| && k < |ws[i].db.outbound| && ws[i].db.outbound[k].guid.Some?
    ensures j < i && ws[j].pc.Resolving? && ws[j].pc.todo != []
    ensures ws[j].pc.todo[0].job.messageId == ws[i].db.outbound[k].messageId
    ensures acts[j].Resolve? && acts[j].found.Some? && Holds(ws[i].db.outbound[k], acts[j].found.value)
  {
    var found := BoundByFound(ws, acts, i, k);
    j := FoundByResolve(ws, acts, found);
  }

  /** Queued, sent, delivered and read rise in this order; failed and unknown are above them all,
      and any other word below. */
  lemma RankOrder(other: string)
    ensures Rank(Other(other)) == Rank(Received) < Rank(Queued) < Rank(Sent) < Rank(Delivered) < Rank(Read)
    ensures Rank(Read) < Rank(Failed) == Rank(Unknown)
  {
  }

  /** What was read, has failed or is unknown is final: no observation changes the tables. */
  lemma FinalStays(db: Db, guid: string, status: Status, timestamp: string, now: string, k: nat)
    requires k < |db.outbound| && db.outbound[k].guid == Some(guid) && db.outbound[k].lastStatus in {Read, Failed, Unknown}
    requires forall l :: 0 <= l < k ==> db.outbound[l].guid != Some(guid)
    requires status in {Sent, Delivered, Read}
    ensures AdvanceStatus(db, guid, status, timestamp, now) == (db, false)
  {
    RankOrder("");
    assert FindGuid(db.outbound, guid) == k;
  }

  // Acceptance

  /** A request without a client_ref is accepted exactly when its message id is new: its command
      joins the queue as the last row, and the entry returned is the one journaled. */
  lemma FreshRequestExactly(sha: Digest, db: Db, job: SendJob, now: string)
    requires job.clientRef.None?
    ensures var (db', r) := Accept(sha, db, job, now);
            if exists k :: 0 <= k < |db.outbound| && db.outbound[k].messageId == job.messageId
            then db' == db && r == Failure(Constraint)
            else
              && |db'.outbound| == |db.outbound| + 1 && db'.outbound[..|db.outbound|] == db.outbound
              && JobOf(db'.outbound[|db.outbound|]) == Some(job)
              && db'.outbound[|db.outbound|].dispatchState == Waiting && db'.outbound[|db.outbound|].createdAt == now
              && db'.outbound[|db.outbound|].lastStatus == Queued && db'.idempotency == db.idempotency
              && r == Success(AcceptedSend(job.messageId, Queued, true, LastEntry(db'), false)) && LastEntry(db').Some?
  {
    NewRowDecodes(job, now);
  }

  /** Under a client_ref that no fingerprinted key maps, a new message is accepted the same way,
      and the key then maps to it, unless another key has its id. */
  lemma KeyedRequestExactly(sha: Digest, db: Db, job: SendJob, ref: string, now: string)
    requires job.clientRef == Some(ref) && (ref in db.idempotency ==> db.idempotency[ref].fingerprint.None?)
    requires forall k :: 0 <= k < |db.outbound| ==> db.outbound[k].messageId != job.messageId
    ensures var (db', r) := Accept(sha, db, job, now);
            if exists other :: other in db.idempotency && other != ref && db.idempotency[other].messageId == job.messageId
            then db' == db && r == Failure(Constraint)
            else
              && |db'.outbound| == |db.outbound| + 1 && db'.outbound[..|db.outbound|] == db.outbound
              && JobOf(db'.outbound[|db.outbound|]) == Some(job)
              && db'.outbound[|db.outbound|].dispatchState == Waiting && db'.outbound[|db.outbound|].createdAt == now
              && db'.idempotency == db.idempotency[ref := IdempotencyRow(job.messageId, Some(RequestFingerprint(sha, job)))]
              && r == Success(AcceptedSend(job.messageId, Queued, true, LastEntry(db'), true)) && LastEntry(db').Some?
  {
    NewRowDecodes(job, now);
    assert IdTaken(db, ref, job.messageId) <==>
             exists other :: other in db.idempotency && other != ref && db.idempotency[other].messageId == job.messageId;
  }
}
