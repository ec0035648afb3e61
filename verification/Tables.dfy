/** The rows of state.db and what each transaction does to them. Rows stay in insertion
    order, which is the order in which a lookup meets them. */
module Tables {
  import opened Wrappers
  import opened Strings
  import opened Model
  import opened Fingerprint
  import opened Journal

  datatype DispatchState = Waiting | Dispatching | SentUnbound | Bound | Refused | Stalled | Legacy

  datatype OutboundRow = OutboundRow(
    messageId: string, clientRef: Option<string>, handle: string, targetKind: Option<TargetKind>,
    targetValue: Option<string>, text: Option<string>, protocol: Option<string>, preRowid: int,
    guid: Option<string>, chatId: Option<string>, rowid: Option<int>, lastStatus: Status,
    dispatchState: DispatchState, createdAt: string)

  datatype IdempotencyRow = IdempotencyRow(messageId: string, fingerprint: Option<string>)

  datatype Db = Db(installation: string, outbound: seq<OutboundRow>,
                   idempotency: map<string, IdempotencyRow>, events: seq<JournaledEvent>)

  datatype AcceptedSend = AcceptedSend(messageId: string, status: Status, isNew: bool,
                                       journaled: Option<JournaledEvent>, idempotent: bool)

  datatype StoreError = Conflict(clientRef: string) | Constraint | Fault

  datatype DurableSend = DurableSend(job: SendJob, preRowid: int, state: DispatchState)

  /** The first row with the given message id, or the number of rows. */
  function Find(rows: seq<OutboundRow>, id: string): (i: nat)
    ensures i <= |rows| && (i < |rows| ==> rows[i].messageId == id)
    ensures forall j :: 0 <= j < i ==> rows[j].messageId != id
  {
    if rows == [] || rows[0].messageId == id then 0 else 1 + Find(rows[1..], id)
  }

  /** The first row bound to the given provider guid, or the number of rows. */
  function FindGuid(rows: seq<OutboundRow>, guid: string): (i: nat)
    ensures i <= |rows| && (i < |rows| ==> rows[i].guid == Some(guid))
    ensures forall j :: 0 <= j < i ==> rows[j].guid != Some(guid)
  {
    if rows == [] || rows[0].guid == Some(guid) then 0 else 1 + FindGuid(rows[1..], guid)
  }

  // Events

  function JobEvent(kind: EventKind, job: SendJob, now: string): Event {
    NewEvent(kind, job.messageId, now).(
      clientRef := job.clientRef,
      handle := job.target.EventHandle(),
      chatId := job.target.EventChatId(),
      protocol := Some(job.protocol))
  }

  function QueuedEventOf(job: SendJob, now: string): Event {
    JobEvent(QueuedEvent, job, now).(text := Some(job.text), status := Some(Queued))
  }

  function Protocol(row: OutboundRow): string {
    if row.protocol.Some? then row.protocol.value else "imessage"
  }

  function StatusEventOf(row: OutboundRow, status: Status, timestamp: string): Event {
    NewEvent(StatusEvent, row.messageId, timestamp).(
      providerMessageId := row.guid,
      clientRef := row.clientRef,
      handle := if row.targetKind == Some(ChatKind) || "any;" <= row.handle then None else Some(row.handle),
      chatId := row.chatId,
      protocol := Some(Protocol(row)),
      status := Some(status))
  }

  function Journaled(db: Db, event: Event, now: string): Db {
    db.(events := Append(db.events, db.installation, event, now))
  }

  function LastEntry(db: Db): Option<JournaledEvent> {
    if db.events == [] then None else Some(db.events[|db.events| - 1])
  }

  // Acceptance

  function NewRow(job: SendJob, now: string): OutboundRow {
    OutboundRow(job.messageId, job.clientRef, job.target.StoreKey(), Some(job.target.Kind()),
                Some(job.target.StoreKey()), Some(job.text), Some(job.protocol), 0, None, None, None,
                Queued, Waiting, now)
  }

  function StatusOf(db: Db, id: string): Status {
    var i := Find(db.outbound, id);
    if i < |db.outbound| then db.outbound[i].lastStatus else Queued
  }

  function InsertSend(db: Db, job: SendJob, now: string): (Db, Result<AcceptedSend, StoreError>) {
    if Find(db.outbound, job.messageId) < |db.outbound| then (db, Failure(Constraint))
    else
      var db' := Journaled(db.(outbound := db.outbound + [NewRow(job, now)]), QueuedEventOf(job, now), now);
      (db', Success(AcceptedSend(job.messageId, Queued, true, LastEntry(db'), job.clientRef.Some?)))
  }

  /** Another client_ref already maps to this message id. */
  predicate IdTaken(db: Db, ref: string, id: string) {
    exists other :: other in db.idempotency && other != ref && db.idempotency[other].messageId == id
  }

  predicate Fingerprinted(db: Db, ref: string) {
    ref in db.idempotency && db.idempotency[ref].fingerprint.Some?
  }

  /** `accept_and_record_queued`. */
  function Accept(sha: Digest, db: Db, job: SendJob, now: string): (Db, Result<AcceptedSend, StoreError>) {
    match job.clientRef
    case None => InsertSend(db, job, now)
    case Some(ref) =>
      var fingerprint := RequestFingerprint(sha, job);
      if Fingerprinted(db, ref) then
        var known := db.idempotency[ref];
        if known.fingerprint.value != fingerprint then (db, Failure(Conflict(ref)))
        else (db, Success(AcceptedSend(known.messageId, StatusOf(db, known.messageId), false, None, true)))
      else if IdTaken(db, ref, job.messageId) then (db, Failure(Constraint))
      else
        var row := IdempotencyRow(job.messageId, Some(fingerprint));
        var (db', r) := InsertSend(db.(idempotency := db.idempotency[ref := row]), job, now);
        if r.Failure? then (db, r) else (db', r)
  }

  // Dispatch

  /** `mark_dispatching`: the claim, guarded by the queued state. */
  function MarkDispatching(db: Db, id: string, pre: int): (Db, bool) {
    var i := Find(db.outbound, id);
    if i < |db.outbound| && db.outbound[i].dispatchState == Waiting then
      (db.(outbound := db.outbound[i := db.outbound[i].(dispatchState := Dispatching, preRowid := pre)]), true)
    else (db, false)
  }

  /** `record_sent_acceptance`: no guard on the row's state. */
  function RecordSentAcceptance(db: Db, job: SendJob, now: string): Db {
    var i := Find(db.outbound, job.messageId);
    var rows := if i < |db.outbound| then db.outbound[i := db.outbound[i].(dispatchState := SentUnbound)]
                else db.outbound;
    Journaled(db.(outbound := rows), JobEvent(SentEvent, job, now), now)
  }

  /** `record_failed`: no guard on the row's state. */
  function RecordFailed(db: Db, job: SendJob, reason: string, now: string): Db {
    var i := Find(db.outbound, job.messageId);
    var rows := if i < |db.outbound|
                then db.outbound[i := db.outbound[i].(dispatchState := Refused, lastStatus := Failed)]
                else db.outbound;
    Journaled(db.(outbound := rows), JobEvent(FailedEvent, job, now).(reason := Some(reason)), now)
  }

  /** `bind_and_record_sent`: the event describes the first row that holds the guid. */
  function BindAndRecordSent(db: Db, id: string, rowid: int, guid: string, chatId: Option<string>, now: string): (Db, bool) {
    var i := Find(db.outbound, id);
    if i == |db.outbound| || db.outbound[i].guid.Some? then (db, false)
    else
      var row := db.outbound[i].(guid := Some(guid), rowid := Some(rowid), chatId := chatId,
                                 lastStatus := Sent, dispatchState := Bound);
      var rows := db.outbound[i := row];
      assert rows[i].guid == Some(guid);
      (Journaled(db.(outbound := rows), StatusEventOf(rows[FindGuid(rows, guid)], Sent, now), now), true)
  }

  function Rank(status: Status): int {
    match status
    case Queued => 0
    case Sent => 1
    case Delivered => 2
    case Read => 3
    case Failed => 4
    case Unknown => 4
    case _ => -1
  }

  function SetStatus(rows: seq<OutboundRow>, guid: string, status: Status): (rows': seq<OutboundRow>)
    ensures |rows'| == |rows|
    ensures forall i :: 0 <= i < |rows| ==>
              rows'[i] == if rows[i].guid == Some(guid) then rows[i].(lastStatus := status) else rows[i]
  {
    seq(|rows|, i requires 0 <= i < |rows| =>
      if rows[i].guid == Some(guid) then rows[i].(lastStatus := status) else rows[i])
  }

  /** `advance_status_and_record`: compares with the first row that holds the guid, updates
      every row that holds it, journals for the first. */
  function AdvanceStatus(db: Db, guid: string, status: Status, timestamp: string, now: string): (Db, bool) {
    var i := FindGuid(db.outbound, guid);
    if i == |db.outbound| || Rank(status) <= Rank(db.outbound[i].lastStatus) then (db, false)
    else
      (Journaled(db.(outbound := SetStatus(db.outbound, guid, status)),
                 StatusEventOf(db.outbound[i], status, timestamp), now), true)
  }

  // Reopening

  /** The migration of sends an older version gave up on. */
  function MigrateUnknown(db: Db): (db': Db)
    ensures |db'.outbound| == |db.outbound|
  {
    db.(outbound := seq(|db.outbound|, i requires 0 <= i < |db.outbound| =>
      var row := db.outbound[i];
      if row.dispatchState == Stalled && row.guid.None? && row.text.Some?
      then row.(dispatchState := SentUnbound, lastStatus := Sent) else row))
  }

  function ClientRefs(rows: seq<OutboundRow>): set<string> {
    set i | 0 <= i < |rows| && rows[i].clientRef.Some? :: rows[i].clientRef.value
  }

  /** `MIN(message_id)` over the rows with the given client_ref. */
  function MinId(rows: seq<OutboundRow>, ref: string): Option<string> {
    if rows == [] then None
    else
      var rest := MinId(rows[1..], ref);
      if rows[0].clientRef != Some(ref) then rest
      else if rest.Some? && Le(rest.value, rows[0].messageId) then rest
      else Some(rows[0].messageId)
  }

  /** INSERT OR IGNORE of one binding without fingerprint for each client_ref not yet mapped. */
  function Backfill(db: Db): Db {
    var added := map ref | ref in ClientRefs(db.outbound) && ref !in db.idempotency
                           && MinId(db.outbound, ref).Some?
                           && !IdTaken(db, ref, MinId(db.outbound, ref).value)
                 :: IdempotencyRow(MinId(db.outbound, ref).value, None);
    db.(idempotency := db.idempotency + added)
  }

  // Queries

  function ToSend(row: OutboundRow): Option<DurableSend> {
    if row.targetKind.None? || row.targetValue.None? || row.text.None? then None
    else
      match FromParts(row.targetKind.value, row.targetValue.value)
      case None => None
      case Some(target) =>
        Some(DurableSend(SendJob(row.messageId, target, row.text.value, Protocol(row), row.clientRef),
                         row.preRowid, row.dispatchState))
  }

  /** ORDER BY created_at, message_id. */
  predicate Before(a: OutboundRow, b: OutboundRow) {
    Le(a.createdAt, b.createdAt) && (a.createdAt == b.createdAt ==> Le(a.messageId, b.messageId))
  }

  /** The first queued row in queue order among the first `n`, or the number of rows. */
  function FirstWaiting(rows: seq<OutboundRow>, n: nat): (i: nat)
    requires n <= |rows|
    ensures i < n || i == |rows|
    ensures i < |rows| ==> rows[i].dispatchState == Waiting
  {
    if n == 0 then |rows|
    else
      var i := FirstWaiting(rows, n - 1);
      if rows[n - 1].dispatchState != Waiting || (i < |rows| && Before(rows[i], rows[n - 1])) then i else n - 1
  }

  /** `next_queued`: a row that does not decode ends the drain like an empty queue. */
  function NextQueued(db: Db): Option<DurableSend> {
    var i := FirstWaiting(db.outbound, |db.outbound|);
    if i < |db.outbound| then ToSend(db.outbound[i]) else None
  }

  predicate InFlight(state: DispatchState) {
    state == Dispatching || state == SentUnbound
  }

  function InsertRow(row: OutboundRow, sorted: seq<OutboundRow>): (r: seq<OutboundRow>)
    ensures multiset(r) == multiset(sorted) + multiset{row}
  {
    if sorted == [] || Before(row, sorted[0]) then [row] + sorted
    else
      assert sorted == [sorted[0]] + sorted[1..];
      [sorted[0]] + InsertRow(row, sorted[1..])
  }

  /** The rows still in flight, in queue order. */
  function InFlightRows(rows: seq<OutboundRow>): seq<OutboundRow> {
    if rows == [] then []
    else
      var rest := InFlightRows(rows[1..]);
      if InFlight(rows[0].dispatchState) then InsertRow(rows[0], rest) else rest
  }

  function DecodeSends(rows: seq<OutboundRow>): seq<DurableSend> {
    if rows == [] then []
    else (match ToSend(rows[0]) case Some(send) => [send] case None => []) + DecodeSends(rows[1..])
  }

  /** `recoverable_sends`. */
  function RecoverableSends(db: Db): seq<DurableSend> {
    DecodeSends(InFlightRows(db.outbound))
  }
}
