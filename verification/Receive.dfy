/** Inbound capture as a transition system: a growing chat.db whose rows are enriched in
    place, the receive worker, the journal task behind its queue, the saved receive state,
    and crashes between any two steps. */
module Receive {
  import opened Wrappers
  import opened Model
  import opened Journal
  import opened InboundEvent

  const QUARANTINE_AFTER_ATTEMPTS: nat := 90

  datatype PendingInbound = PendingInbound(rowid: int, guid: string, firstSeenAt: string, attempts: nat,
                                           lastError: Option<string>, quarantinedAt: Option<string>)

  /** The persisted receive state. `base` is history: the watermark at initialisation, below
      which nothing is promised. */
  datatype State = State(lastSeen: int, pending: seq<PendingInbound>, base: int)

  const DEFAULT_STATE := State(0, [], 0)

  /** Where the receive worker stands. All of it is lost in a crash. */
  datatype Pc =
    | Down
    | Idle
    | Retry(todo: seq<PendingInbound>, next: State)
    | RetryWait(pending: PendingInbound, ack: Option<bool>, todo: seq<PendingInbound>, next: State)
    | Scan(rows: seq<Row>, upto: int)
    | ScanWait(row: Row, ack: Option<bool>, rows: seq<Row>, upto: int)
    | ScanSave(next: State, rows: seq<Row>, upto: int)

  /** What never changes about a ROWID. */
  datatype Identity = Identity(guid: string, inbound: bool)

  datatype World = World(
    chat: map<int, Row>,        // chat.db now
    ids: map<int, Identity>,    // history: every ROWID chat.db ever used
    top: int,                   // history: the highest of them
    disk: Option<State>,        // durable: state.json
    journal: seq<Event>,        // durable: the message.received entries
    sink: seq<Event>,           // volatile: events queued for the journal task
    mem: State,                 // volatile: the worker's copy of the state
    pc: Pc,
    faults: nat,                // history: crashes, failed saves, entries stored without the worker being told
    troubles: nat)              // history: crashes, failed saves and every failed query or journal request

  /** How the journal write of one request ends; the cursor read after the insert may fail,
      and then the entry is there but the request is answered with an error. */
  datatype Write = Acknowledged | Lost | StoredUnacknowledged

  datatype Action =
    | Insert(row: Row)
    | Enrich(row: Row)
    | Delete(rowid: int)
    | Commit(write: Write)
    | EmitterDies
    | Crash
    | Start(read: Option<int>, saved: bool)
    | BeginRetry
    | RetryRow(readable: bool, closed: bool, timestamp: string, now: string)
    | RetryAck(now: string)
    | RetryTimeout(now: string)
    | RetrySave(saved: bool)
    | ScanFails
    | BeginScan(rows: seq<Row>)
    | ScanRow(closed: bool, timestamp: string, now: string)
    | ScanAck
    | ScanTimeout
    | Save(saved: bool)
    | EndScan

  function IdentityOf(row: Row): Identity {
    Identity(row.guid, row.isFromMe == 0)
  }

  predicate Ascending(rows: seq<Row>) {
    forall i, j :: 0 <= i < j < |rows| ==> rows[i].rowid < rows[j].rowid
  }

  /** The range query: every row above the watermark, in ROWID order. */
  predicate IsSnapshot(chat: map<int, Row>, lastSeen: int, rows: seq<Row>) {
    Ascending(rows)
    && (forall k :: 0 <= k < |rows| ==>
          rows[k].rowid > lastSeen && rows[k].rowid in chat && chat[rows[k].rowid] == rows[k])
    && forall r :: r in chat && r > lastSeen ==> exists k :: 0 <= k < |rows| && rows[k].rowid == r
  }

  predicate IsMaxRowid(chat: map<int, Row>, v: int) {
    (chat == map[] && v == 0) || (v in chat && forall c :: c in chat ==> c <= v)
  }

  predicate Waiting(pc: Pc) {
    pc.RetryWait? || pc.ScanWait?
  }

  predicate Enabled(w: World, a: Action) {
    match a
    case Insert(row) => row.rowid > w.top && row.guid != "" && forall r :: r in w.ids ==> w.ids[r].guid != row.guid
    case Enrich(row) => row.rowid in w.chat && row.rowid in w.ids && IdentityOf(row) == w.ids[row.rowid]
    case Delete(_) => true
    case Commit(_) => w.sink != []
    case EmitterDies => true
    case Crash => !w.pc.Down?
    case Start(read, _) => w.pc.Down? && (read.Some? ==> IsMaxRowid(w.chat, read.value))
    case BeginRetry => w.pc.Idle?
    case RetryRow(_, _, _, _) => w.pc.Retry? && w.pc.todo != []
    case RetryAck(_) => w.pc.RetryWait? && w.pc.ack.Some?
    case RetryTimeout(_) => w.pc.RetryWait? && w.pc.ack.None?
    case RetrySave(_) => w.pc.Retry? && w.pc.todo == []
    case ScanFails => w.pc.Idle?
    case BeginScan(rows) => w.pc.Idle? && IsSnapshot(w.chat, w.mem.lastSeen, rows)
    case ScanRow(_, _, _) => w.pc.Scan? && w.pc.rows != []
    case ScanAck => w.pc.ScanWait? && w.pc.ack.Some?
    case ScanTimeout => w.pc.ScanWait? && w.pc.ack.None?
    case Save(_) => w.pc.ScanSave?
    case EndScan => w.pc.Scan? && w.pc.rows == []
  }

  // The state updates of the worker

  predicate HasPending(pending: seq<PendingInbound>, guid: string) {
    exists k :: 0 <= k < |pending| && pending[k].guid == guid
  }

  /** `retain(|candidate| candidate.guid != guid)`. */
  function Without(pending: seq<PendingInbound>, guid: string): (r: seq<PendingInbound>)
    ensures forall p :: p in r <==> p in pending && p.guid != guid
  {
    if pending == [] then []
    else
      assert pending == [pending[0]] + pending[1..];
      (if pending[0].guid != guid then [pending[0]] else []) + Without(pending[1..], guid)
  }

  /** One more failed attempt; the counter saturates and the ninetieth quarantines. */
  function Bumped(p: PendingInbound, reason: string, now: string): PendingInbound {
    var attempts := if p.attempts < U32_MAX then p.attempts + 1 else p.attempts;
    p.(attempts := attempts, lastError := Some(reason),
       quarantinedAt := if attempts >= QUARANTINE_AFTER_ATTEMPTS && p.quarantinedAt.None? then Some(now)
                        else p.quarantinedAt)
  }

  /** Bumps the first entry with the guid. */
  function Bump(pending: seq<PendingInbound>, guid: string, reason: string, now: string): (r: seq<PendingInbound>)
    ensures |r| == |pending|
    ensures forall k :: 0 <= k < |r| ==> r[k] == pending[k] || (pending[k].guid == guid && r[k] == Bumped(pending[k], reason, now))
  {
    if pending == [] then []
    else if pending[0].guid == guid then [Bumped(pending[0], reason, now)] + pending[1..]
    else [pending[0]] + Bump(pending[1..], guid, reason, now)
  }

  function AfterFailure(next: State, p: PendingInbound, reason: string, now: string): State {
    next.(pending := Bump(next.pending, p.guid, reason, now))
  }

  function Captured(st: State, row: Row, reason: string, now: string): State {
    if HasPending(st.pending, row.guid) then st
    else st.(pending := st.pending + [PendingInbound(row.rowid, row.guid, now, 0, Some(reason), None)])
  }

  function ApplyStart(w: World, read: Option<int>, saved: bool): World {
    var loaded := if w.disk.Some? then w.disk.value else DEFAULT_STATE;
    if loaded.lastSeen != 0 then w.(mem := loaded, pc := Idle)
    else
      var first := if read.Some? then read.value else 0;
      var mem := loaded.(lastSeen := first, base := first);
      w.(mem := mem, pc := Idle, disk := if saved then Some(mem) else w.disk)
  }

  /** The event of a pending row, or why the attempt fails. */
  function RetryOutcome(w: World, p: PendingInbound, readable: bool, closed: bool, timestamp: string): Result<Event, string> {
    if !readable then Failure("chat.db query failed")
    else if p.rowid !in w.chat then Failure("message row is absent from chat.db")
    else
      var event := EventOf(w.chat[p.rowid], timestamp);
      if event.Success? && closed then Failure("journal failed") else event
  }

  function ApplyRetryRow(w: World, readable: bool, closed: bool, timestamp: string, now: string): World
    requires w.pc.Retry? && w.pc.todo != []
  {
    var p, todo, next := w.pc.todo[0], w.pc.todo[1..], w.pc.next;
    match RetryOutcome(w, p, readable, closed, timestamp)
    case Failure(reason) =>
      w.(pc := Retry(todo, AfterFailure(next, p, reason, now)),
         troubles := w.troubles + if !readable || closed then 1 else 0)
    case Success(event) => w.(sink := w.sink + [event], pc := RetryWait(p, None, todo, next))
  }

  function ApplyScanRow(w: World, closed: bool, timestamp: string, now: string): World
    requires w.pc.Scan? && w.pc.rows != []
  {
    var row, rows, upto := w.pc.rows[0], w.pc.rows[1..], w.pc.upto;
    if row.rowid <= w.mem.lastSeen then w.(pc := Scan(rows, upto))
    else if row.isFromMe != 0 then w.(pc := ScanSave(w.mem.(lastSeen := row.rowid), rows, upto))
    else
      match EventOf(row, timestamp)
      case Failure(reason) =>
        w.(pc := ScanSave(Captured(w.mem, row, reason, now).(lastSeen := row.rowid), rows, upto))
      case Success(event) =>
        if closed then w.(pc := Idle, troubles := w.troubles + 1)
        else w.(sink := w.sink + [event], pc := ScanWait(row, None, rows, upto))
  }

  /** The journal task takes the oldest request; when it is the one awaited, it answers. */
  function ApplyCommit(w: World, write: Write): World
    requires w.sink != []
  {
    Written(w, write, ValidPublicEvent(w.sink[0]))
  }

  /** An entry stored while nobody awaits its request, or answered with an error, is a fault:
      the worker has to ask again. A request that was lost is only trouble. */
  function Written(w: World, write: Write, valid: bool): World
    requires w.sink != []
  {
    var stored, ok := valid && !write.Lost?, valid && write.Acknowledged?;
    Processed(Charged(w, if stored && !(ok && AwaitsOldest(w)) then 1 else 0, if write.Acknowledged? then 0 else 1),
              stored, ok)
  }

  predicate AwaitsOldest(w: World) {
    |w.sink| == 1 && Waiting(w.pc) && w.pc.ack.None?
  }

  function Charged(w: World, faults: nat, troubles: nat): World {
    w.(faults := w.faults + faults, troubles := w.troubles + troubles)
  }

  /** Nobody but the worker waits, and only for the last request it queued. */
  function Processed(w: World, stored: bool, ok: bool): World
    requires w.sink != []
  {
    if |w.sink| == 1 then Answered(Stored(w, stored), ok) else Stored(w, stored)
  }

  /** The oldest request leaves the queue, into the journal or not. */
  function Stored(w: World, stored: bool): World
    requires w.sink != []
  {
    w.(sink := w.sink[1..], journal := if stored then w.journal + [w.sink[0]] else w.journal)
  }

  function Answered(w: World, ok: bool): World {
    if w.pc.RetryWait? && w.pc.ack.None? then
      w.(pc := RetryWait(w.pc.pending, Some(ok), w.pc.todo, w.pc.next))
    else if w.pc.ScanWait? && w.pc.ack.None? then
      w.(pc := ScanWait(w.pc.row, Some(ok), w.pc.rows, w.pc.upto))
    else w
  }

  function Apply(w: World, a: Action): World
    requires Enabled(w, a)
  {
    match a
    case Insert(row) =>
      w.(chat := w.chat[row.rowid := row], ids := w.ids[row.rowid := IdentityOf(row)], top := row.rowid)
    case Enrich(row) => w.(chat := w.chat[row.rowid := row])
    case Delete(rowid) => w.(chat := w.chat - {rowid})
    case Commit(write) => ApplyCommit(w, write)
    case EmitterDies => Answered(w.(sink := [], troubles := w.troubles + 1), false)
    case Crash => w.(pc := Down, sink := [], faults := w.faults + 1, troubles := w.troubles + 1)
    case Start(read, saved) => ApplyStart(w, read, saved)
    case BeginRetry => if w.mem.pending == [] then w else w.(pc := Retry(w.mem.pending, w.mem))
    case RetryRow(readable, closed, timestamp, now) => ApplyRetryRow(w, readable, closed, timestamp, now)
    case RetryAck(now) =>
      var p, next := w.pc.pending, w.pc.next;
      if w.pc.ack.value then w.(pc := Retry(w.pc.todo, next.(pending := Without(next.pending, p.guid))))
      else w.(pc := Retry(w.pc.todo, AfterFailure(next, p, "journal failed", now)))
    case RetryTimeout(now) =>
      w.(pc := Retry(w.pc.todo, AfterFailure(w.pc.next, w.pc.pending, "journal failed", now)),
         troubles := w.troubles + 1)
    case RetrySave(saved) =>
      if saved then w.(mem := w.pc.next, disk := Some(w.pc.next), pc := Idle)
      else w.(pc := Idle, faults := w.faults + 1, troubles := w.troubles + 1)
    case ScanFails => w.(troubles := w.troubles + 1)
    case BeginScan(rows) => w.(pc := Scan(rows, w.top))
    case ScanRow(closed, timestamp, now) => ApplyScanRow(w, closed, timestamp, now)
    case ScanAck =>
      if w.pc.ack.value then w.(pc := ScanSave(w.mem.(lastSeen := w.pc.row.rowid), w.pc.rows, w.pc.upto))
      else w.(pc := Idle)
    case ScanTimeout => w.(pc := Idle, troubles := w.troubles + 1)
    case Save(saved) =>
      if saved then w.(mem := w.pc.next, disk := Some(w.pc.next), pc := Scan(w.pc.rows, w.pc.upto))
      else w.(pc := Idle, faults := w.faults + 1, troubles := w.troubles + 1)
    case EndScan => w.(pc := Idle)
  }

  /** No saved state, an empty journal and no process; chat.db may hold any history. */
  ghost predicate Initial(w: World) {
    w.disk == None && w.journal == [] && w.sink == [] && w.pc == Down && w.faults == 0 && IdsOk(w)
  }

  ghost predicate IsRun(ws: seq<World>, acts: seq<Action>) {
    |ws| == |acts| + 1 && Initial(ws[0])
    && forall i :: 0 <= i < |acts| ==> Enabled(ws[i], acts[i]) && ws[i + 1] == Apply(ws[i], acts[i])
  }

  /** ROWIDs and guids identify each other, and chat.db rows keep their identity. */
  ghost predicate IdsOk(w: World) {
    && w.top >= 0
    && (forall r :: r in w.ids ==> 0 < r <= w.top && w.ids[r].guid != "")
    && (forall r, s :: r in w.ids && s in w.ids && w.ids[r].guid == w.ids[s].guid ==> r == s)
    && (forall r :: r in w.chat ==> r in w.ids && w.chat[r].rowid == r && IdentityOf(w.chat[r]) == w.ids[r])
  }

  predicate ChangesChat(a: Action) {
    a.Insert? || a.Enrich? || a.Delete?
  }

  predicate SameChat(w: World, w': World) {
    w'.chat == w.chat && w'.ids == w.ids && w'.top == w.top
  }

  lemma CommitKeepsChat(w: World, write: Write)
    requires w.sink != []
    ensures SameChat(w, ApplyCommit(w, write))
  {
  }

  lemma RowsKeepChat(w: World, a: Action)
    requires Enabled(w, a) && (a.RetryRow? || a.ScanRow?)
    ensures SameChat(w, Apply(w, a))
  {
  }

  /** Messages.app alone writes chat.db, and it writes nothing else. */
  lemma ChatIsForeign(w: World, a: Action)
    requires Enabled(w, a)
    ensures if ChangesChat(a)
            then Apply(w, a) == w.(chat := Apply(w, a).chat, ids := Apply(w, a).ids, top := Apply(w, a).top)
            else SameChat(w, Apply(w, a))
  {
    if a.Commit? {
      CommitKeepsChat(w, a.write);
    } else if a.RetryRow? || a.ScanRow? {
      RowsKeepChat(w, a);
    }
  }

  lemma StepIds(w: World, a: Action)
    requires IdsOk(w) && Enabled(w, a)
    ensures IdsOk(Apply(w, a))
  {
    match a
    case Insert(row) =>
      var w' := Apply(w, a);
      forall r | r in w'.chat ensures r in w'.ids && w'.chat[r].rowid == r && IdentityOf(w'.chat[r]) == w'.ids[r] {
        if r != row.rowid { assert r in w.chat; }
      }
    case Enrich(row) =>
    case Delete(_) =>
    case _ => ChatIsForeign(w, a);
  }
}
