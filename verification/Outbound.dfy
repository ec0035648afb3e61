/** The outbound protocol as a transition system: HTTP requests, one send worker, one
    correlator, chat.db, and crashes between any two steps. A transaction is one step; a
    transaction that faults changes nothing. */
module Outbound {
  import opened Wrappers
  import opened Strings
  import opened Model
  import opened Fingerprint
  import opened Journal
  import opened Tables
  import opened Lifecycle
  import opened Resolver

  /** Where the send worker stands. All of it is lost in a crash. */
  datatype Pc =
    | Down                                        // no process
    | Idle                                        // about to look for work
    | Loaded(job: SendJob)                        // next_queued returned a job
    | Captured(job: SendJob, pre: int, mark: Option<int>) // watermark taken, job not claimed
    | Claimed(job: SendJob, pre: int)             // row is dispatching, sender not called
    | SenderOk(job: SendJob, pre: int)              // sender returned Ok
    | SenderErr(job: SendJob, reason: string)       // sender returned Err
    | Resolving(todo: seq<DurableSend>)           // looking for the chat.db row of todo[0]
    | Found(row: ResolvedRow, todo: seq<DurableSend>)

  datatype Mail = Mail(guid: string, status: Status, timestamp: string)

  /** An accepted request: what was asked and the message id that was answered. */
  datatype Reply = Reply(job: SendJob, messageId: string, isNew: bool)

  datatype World = World(
    db: Db,                     // durable
    pc: Pc,                     // volatile
    mail: seq<Mail>,            // volatile: the correlator's channel
    chat: map<int, string>,     // the ROWIDs now in chat.db, each with its message guid
    ids: map<int, string>,      // history: every ROWID chat.db ever used, with its guid
    top: int,                   // history: the highest of them
    sends: seq<string>,         // history: the message ids the sender was invoked with
    replies: seq<Reply>,        // history: accepted requests
    marks: map<string, int>)    // history: `top` at the successful watermark read of a claimed send

  datatype Action =
    | Request(job: SendJob, now: string)
    | Load
    | Capture(read: Option<int>, fallback: int)
    | Claim(fault: bool)
    | Send(ok: bool, reason: string)
    | RecordAcceptance(fault: bool, now: string)
    | RecordFailure(fault: bool, now: string)
    | Recover
    | Resolve(found: Option<ResolvedRow>)
    | Bind(fault: bool, now: string)
    | Observe(mail: Mail)
    | Correlate(fault: bool, now: string)
    | Inbound(event: Event, now: string)
    | ChatInsert(rowid: int, guid: string)
    | ChatDelete(rowid: int)
    | Crash
    | MigrateStep
    | BackfillStep
    | Start

  /** `SELECT COALESCE(MAX(ROWID), 0)`. */
  predicate IsMaxRowid(chat: map<int, string>, v: int) {
    (chat == map[] && v == 0) || (v in chat && forall c :: c in chat ==> c <= v)
  }

  predicate Enabled(w: World, a: Action) {
    match a
    case Request(_, _) => !w.pc.Down?
    case Load => w.pc.Idle? && NextQueued(w.db).Some?
    case Capture(read, _) => w.pc.Loaded? && (read.Some? ==> IsMaxRowid(w.chat, read.value))
    case Claim(_) => w.pc.Captured?
    case Send(_, _) => w.pc.Claimed?
    case RecordAcceptance(_, _) => w.pc.SenderOk?
    case RecordFailure(_, _) => w.pc.SenderErr?
    case Recover => w.pc.Idle?
    case Resolve(found) =>
      w.pc.Resolving? && w.pc.todo != []
      && (found.Some? ==>
            found.value.rowid in w.chat && w.chat[found.value.rowid] == found.value.guid
            && found.value.rowid > w.pc.todo[0].preRowid)
    case Bind(_, _) => w.pc.Found? && w.pc.todo != []
    case Observe(mail) => !w.pc.Down? && Observable(mail.status)
    case Correlate(_, _) => !w.pc.Down? && w.mail != []
    case Inbound(event, _) => !w.pc.Down? && event.event == ReceivedEvent
    case ChatInsert(rowid, guid) => rowid > w.top && forall r :: r in w.ids ==> w.ids[r] != guid
    case ChatDelete(_) => true
    case Crash => !w.pc.Down?
    case MigrateStep => w.pc.Down?
    case BackfillStep => w.pc.Down?
    case Start => w.pc.Down?
  }

  function NextPc(todo: seq<DurableSend>): Pc {
    if todo == [] then Idle else Resolving(todo)
  }

  function ApplyRequest(sha: Digest, w: World, job: SendJob, now: string): World {
    var (db', r) := Accept(sha, w.db, job, now);
    if r.Failure? then w
    else w.(db := db', replies := w.replies + [Reply(job, r.value.messageId, r.value.isNew)])
  }

  function ApplyClaim(w: World): World
    requires w.pc.Captured?
  {
    var id := w.pc.job.messageId;
    var (db', claimed) := MarkDispatching(w.db, id, w.pc.pre);
    if !claimed then w.(pc := Idle)
    else w.(db := db', pc := Claimed(w.pc.job, w.pc.pre),
            marks := if w.pc.mark.Some? then w.marks[id := w.pc.mark.value] else w.marks)
  }

  function ApplyBind(w: World, fault: bool, now: string): World
    requires w.pc.Found? && w.pc.todo != []
  {
    var row := w.pc.row;
    w.(db := if fault then w.db
             else BindAndRecordSent(w.db, w.pc.todo[0].job.messageId, row.rowid, row.guid, row.chatId, now).0,
       pc := NextPc(w.pc.todo[1..]))
  }

  function Apply(sha: Digest, w: World, a: Action): World
    requires Enabled(w, a)
  {
    match a
    case Request(job, now) => ApplyRequest(sha, w, job, now)
    case Load => w.(pc := Loaded(NextQueued(w.db).value.job))
    case Capture(read, fallback) =>
      if read.Some? then w.(pc := Captured(w.pc.job, read.value, Some(w.top)))
      else w.(pc := Captured(w.pc.job, fallback, None))
    case Claim(fault) => if fault then w.(pc := Idle) else ApplyClaim(w)
    case Send(ok, reason) =>
      w.(sends := w.sends + [w.pc.job.messageId],
         pc := if ok then SenderOk(w.pc.job, w.pc.pre) else SenderErr(w.pc.job, reason))
    case RecordAcceptance(fault, now) =>
      w.(db := if fault then w.db else RecordSentAcceptance(w.db, w.pc.job, now),
         pc := Resolving([DurableSend(w.pc.job, w.pc.pre, SentUnbound)]))
    case RecordFailure(fault, now) =>
      w.(db := if fault then w.db else RecordFailed(w.db, w.pc.job, w.pc.reason, now), pc := Idle)
    case Recover => w.(pc := NextPc(RecoverableSends(w.db)))
    case Resolve(found) =>
      if found.Some? then w.(pc := Found(found.value, w.pc.todo)) else w.(pc := NextPc(w.pc.todo[1..]))
    case Bind(fault, now) => ApplyBind(w, fault, now)
    case Observe(mail) => w.(mail := w.mail + [mail])
    case Correlate(fault, now) =>
      var mail := w.mail[0];
      w.(db := if fault then w.db else AdvanceStatus(w.db, mail.guid, mail.status, mail.timestamp, now).0,
         mail := w.mail[1..])
    case Inbound(event, now) => w.(db := Journaled(w.db, event, now))
    case ChatInsert(rowid, guid) => w.(chat := w.chat[rowid := guid], ids := w.ids[rowid := guid], top := rowid)
    case ChatDelete(rowid) => w.(chat := w.chat - {rowid})
    case Crash => w.(pc := Down, mail := [])
    case MigrateStep => w.(db := MigrateUnknown(w.db))
    case BackfillStep => w.(db := Backfill(w.db))
    case Start => w.(pc := Idle)
  }

  /** A fresh database and no process yet. */
  ghost predicate Initial(w: World) {
    && w.db.outbound == [] && w.db.idempotency == map[] && w.db.events == []
    && w.pc == Down && w.mail == [] && w.sends == [] && w.replies == [] && w.marks == map[]
    && ChatOk(w)
  }

  /** chat.db rows keep their guids, and no two ROWIDs ever share one. */
  ghost predicate ChatOk(w: World) {
    (forall c :: c in w.chat ==> c in w.ids && w.ids[c] == w.chat[c])
    && (forall c :: c in w.ids ==> c <= w.top)
    && forall c, d :: c in w.ids && d in w.ids && w.ids[c] == w.ids[d] ==> c == d
  }

  ghost predicate IsRun(sha: Digest, ws: seq<World>, acts: seq<Action>) {
    |ws| == |acts| + 1 && Initial(ws[0])
    && forall i :: 0 <= i < |acts| ==> Enabled(ws[i], acts[i]) && ws[i + 1] == Apply(sha, ws[i], acts[i])
  }

  /** What an action does to the tables. */
  function DbAfter(sha: Digest, w: World, a: Action): Db
    requires Enabled(w, a)
  {
    match a
    case Request(job, now) => Accept(sha, w.db, job, now).0
    case Claim(false) => MarkDispatching(w.db, w.pc.job.messageId, w.pc.pre).0
    case RecordAcceptance(false, now) => RecordSentAcceptance(w.db, w.pc.job, now)
    case RecordFailure(false, now) => RecordFailed(w.db, w.pc.job, w.pc.reason, now)
    case Bind(false, now) =>
      BindAndRecordSent(w.db, w.pc.todo[0].job.messageId, w.pc.row.rowid, w.pc.row.guid, w.pc.row.chatId, now).0
    case Correlate(false, now) => AdvanceStatus(w.db, w.mail[0].guid, w.mail[0].status, w.mail[0].timestamp, now).0
    case Inbound(event, now) => Journaled(w.db, event, now)
    case MigrateStep => MigrateUnknown(w.db)
    case BackfillStep => Backfill(w.db)
    case _ => w.db
  }

  lemma AcceptAppends(sha: Digest, db: Db, job: SendJob, now: string, i: nat)
    requires i < |Accept(sha, db, job, now).0.outbound|
    ensures if i < |db.outbound| then Accept(sha, db, job, now).0.outbound[i] == db.outbound[i]
            else Accept(sha, db, job, now).0.outbound[i] == NewRow(job, now)
  {
  }

  lemma DbStep(sha: Digest, w: World, a: Action)
    requires Enabled(w, a)
    ensures Apply(sha, w, a).db == DbAfter(sha, w, a)
  {
    if a.Request? { RefusalKeeps(sha, w.db, a.job, a.now); }
  }

  lemma RefusalKeeps(sha: Digest, db: Db, job: SendJob, now: string)
    ensures Accept(sha, db, job, now).1.Failure? ==> Accept(sha, db, job, now).0 == db
  {
  }

  // What every step keeps, without any invariant

  function JobOf(row: OutboundRow): Option<SendJob> {
    match ToSend(row)
    case None => None
    case Some(send) => Some(send.job)
  }

  /** A row keeps its command, and once it has left the queue it never returns to it. */
  predicate Evolves(row: OutboundRow, row': OutboundRow) {
    row' == row.(preRowid := row'.preRowid, guid := row'.guid, chatId := row'.chatId, rowid := row'.rowid,
                 lastStatus := row'.lastStatus, dispatchState := row'.dispatchState)
    && (row'.dispatchState == Waiting ==> row.dispatchState == Waiting)
    && (row.dispatchState != Waiting ==> row'.preRowid == row.preRowid)
  }

  lemma JobStays(row: OutboundRow, row': OutboundRow)
    requires Evolves(row, row')
    ensures JobOf(row') == JobOf(row)
  {
  }

  ghost predicate RowsEvolve(rows: seq<OutboundRow>, rows': seq<OutboundRow>) {
    |rows| <= |rows'| && forall i :: 0 <= i < |rows| ==> Evolves(rows[i], rows'[i])
  }

  /** Rows that other actors touch stay as the worker knows them. */
  ghost predicate SameStates(rows: seq<OutboundRow>, rows': seq<OutboundRow>) {
    RowsEvolve(rows, rows')
    && forall i :: 0 <= i < |rows| ==>
         rows'[i].dispatchState == rows[i].dispatchState && rows'[i].preRowid == rows[i].preRowid
  }

  lemma AcceptEvolves(sha: Digest, db: Db, job: SendJob, now: string)
    ensures RowsEvolve(db.outbound, Accept(sha, db, job, now).0.outbound)
  {
  }

  lemma MarkEvolves(db: Db, id: string, pre: int)
    ensures RowsEvolve(db.outbound, MarkDispatching(db, id, pre).0.outbound)
  {
  }

  lemma RecordEvolves(db: Db, job: SendJob, reason: string, now: string)
    ensures RowsEvolve(db.outbound, RecordSentAcceptance(db, job, now).outbound)
    ensures RowsEvolve(db.outbound, RecordFailed(db, job, reason, now).outbound)
  {
  }

  lemma BindEvolves(db: Db, id: string, rowid: int, guid: string, chatId: Option<string>, now: string)
    ensures RowsEvolve(db.outbound, BindAndRecordSent(db, id, rowid, guid, chatId, now).0.outbound)
  {
  }

  lemma AdvanceEvolves(db: Db, guid: string, status: Status, timestamp: string, now: string)
    ensures SameStates(db.outbound, AdvanceStatus(db, guid, status, timestamp, now).0.outbound)
  {
  }

  lemma MigrateEvolves(db: Db)
    ensures RowsEvolve(db.outbound, MigrateUnknown(db).outbound)
  {
  }

  lemma StepEvolves(sha: Digest, w: World, a: Action)
    requires Enabled(w, a)
    ensures RowsEvolve(w.db.outbound, Apply(sha, w, a).db.outbound)
  {
    DbStep(sha, w, a);
    DbEvolves(sha, w, a);
  }

  lemma DbEvolves(sha: Digest, w: World, a: Action)
    requires Enabled(w, a)
    ensures RowsEvolve(w.db.outbound, DbAfter(sha, w, a).outbound)
  {
    match a
    case Request(job, now) => AcceptEvolves(sha, w.db, job, now);
    case Claim(_) => MarkEvolves(w.db, w.pc.job.messageId, w.pc.pre);
    case RecordAcceptance(_, now) => RecordEvolves(w.db, w.pc.job, "", now);
    case RecordFailure(_, now) => RecordEvolves(w.db, w.pc.job, w.pc.reason, now);
    case Bind(_, now) =>
      var row := w.pc.row;
      BindEvolves(w.db, w.pc.todo[0].job.messageId, row.rowid, row.guid, row.chatId, now);
    case Correlate(_, now) =>
      var mail := w.mail[0];
      AdvanceEvolves(w.db, mail.guid, mail.status, mail.timestamp, now);
    case MigrateStep => MigrateEvolves(w.db);
    case _ =>
  }

  lemma {:induction false} RunEvolves(sha: Digest, ws: seq<World>, acts: seq<Action>, i: nat, j: nat)
    requires IsRun(sha, ws, acts) && i <= j < |ws|
    ensures RowsEvolve(ws[i].db.outbound, ws[j].db.outbound)
    decreases j - i
  {
    if i < j {
      StepEvolves(sha, ws[i], acts[i]);
      RunEvolves(sha, ws, acts, i + 1, j);
    }
  }

  /** No step, recovery or reopening ever returns a row to the queue. */
  lemma NeverRequeued(sha: Digest, ws: seq<World>, acts: seq<Action>, i: nat, j: nat, k: nat)
    requires IsRun(sha, ws, acts) && i <= j < |ws| && k < |ws[i].db.outbound|
    requires ws[i].db.outbound[k].dispatchState != Waiting
    ensures k < |ws[j].db.outbound| && ws[j].db.outbound[k].dispatchState != Waiting
    ensures ws[j].db.outbound[k].messageId == ws[i].db.outbound[k].messageId
  {
    RunEvolves(sha, ws, acts, i, j);
  }

  // The invariant behind at-most-once dispatch

  predicate WellFormedRow(row: OutboundRow) {
    ToSend(row).Some? && row.dispatchState != Stalled && row.dispatchState != Legacy
    && (row.guid.Some? <==> row.dispatchState == Bound)
  }

  ghost predicate TableOk(rows: seq<OutboundRow>) {
    DistinctIds(rows) && forall i :: 0 <= i < |rows| ==> WellFormedRow(rows[i])
  }

  function Count(sends: seq<string>, id: string): nat {
    multiset(sends)[id]
  }

  predicate LeftQueue(rows: seq<OutboundRow>, id: string) {
    var i := Find(rows, id);
    i < |rows| && rows[i].dispatchState != Waiting
  }

  /** No dispatch for what is still queued or unknown, at most one for the rest. */
  ghost predicate SendsOk(rows: seq<OutboundRow>, sends: seq<string>) {
    forall id :: Count(sends, id) <= 1 && (Count(sends, id) == 1 ==> LeftQueue(rows, id))
  }

  predicate HasState(rows: seq<OutboundRow>, job: SendJob, state: DispatchState) {
    var i := Find(rows, job.messageId);
    i < |rows| && rows[i].dispatchState == state && JobOf(rows[i]) == Some(job)
  }

  predicate IsInFlight(rows: seq<OutboundRow>, send: DurableSend) {
    var i := Find(rows, send.job.messageId);
    i < |rows| && InFlight(rows[i].dispatchState) && JobOf(rows[i]) == Some(send.job)
    && send.preRowid == rows[i].preRowid
  }

  ghost predicate AllInFlight(rows: seq<OutboundRow>, todo: seq<DurableSend>) {
    (forall k :: 0 <= k < |todo| ==> IsInFlight(rows, todo[k]))
    && forall k, l :: 0 <= k < l < |todo| ==> todo[k].job.messageId != todo[l].job.messageId
  }

  predicate PreIs(rows: seq<OutboundRow>, job: SendJob, pre: int) {
    var i := Find(rows, job.messageId);
    i < |rows| && rows[i].preRowid == pre
  }

  ghost predicate PcOk(rows: seq<OutboundRow>, sends: seq<string>, pc: Pc) {
    match pc
    case Down => true
    case Idle => true
    case Loaded(job) => HasState(rows, job, Waiting)
    case Captured(job, _, _) => HasState(rows, job, Waiting)
    case Claimed(job, pre) =>
      HasState(rows, job, Dispatching) && PreIs(rows, job, pre) && Count(sends, job.messageId) == 0
    case SenderOk(job, pre) => HasState(rows, job, Dispatching) && PreIs(rows, job, pre)
    case SenderErr(job, _) => HasState(rows, job, Dispatching)
    case Resolving(todo) => todo != [] && AllInFlight(rows, todo)
    case Found(_, todo) => todo != [] && AllInFlight(rows, todo)
  }

  ghost predicate Inv(w: World) {
    TableOk(w.db.outbound) && SendsOk(w.db.outbound, w.sends) && PcOk(w.db.outbound, w.sends, w.pc)
  }

  lemma NewRowDecodes(job: SendJob, now: string)
    ensures ToSend(NewRow(job, now)) == Some(DurableSend(job, 0, Waiting))
  {
  }

  lemma FindGrows(rows: seq<OutboundRow>, rows': seq<OutboundRow>, id: string)
    requires |rows| <= |rows'| && forall i :: 0 <= i < |rows| ==> rows[i].messageId == rows'[i].messageId
    ensures Find(rows, id) < |rows| ==> Find(rows', id) == Find(rows, id)
    ensures Find(rows', id) == |rows'| ==> Find(rows, id) == |rows|
  {
  }

  lemma PcStays(rows: seq<OutboundRow>, rows': seq<OutboundRow>, sends: seq<string>, pc: Pc)
    requires SameStates(rows, rows') && PcOk(rows, sends, pc)
    ensures PcOk(rows', sends, pc)
  {
    forall id ensures Find(rows, id) < |rows| ==> Find(rows', id) == Find(rows, id) {
      FindGrows(rows, rows', id);
    }
    if pc.Resolving? || pc.Found? {
      forall k | 0 <= k < |pc.todo| ensures IsInFlight(rows', pc.todo[k]) {
        assert IsInFlight(rows, pc.todo[k]);
        InFlightStays(rows, rows', pc.todo[k]);
      }
    } else if pc.Loaded? || pc.Captured? || pc.Claimed? || pc.SenderOk? || pc.SenderErr? {
      var i := Find(rows, pc.job.messageId);
      JobStays(rows[i], rows'[i]);
    }
  }

  lemma InFlightStays(rows: seq<OutboundRow>, rows': seq<OutboundRow>, send: DurableSend)
    requires IsInFlight(rows, send) && RowsEvolve(rows, rows')
    requires rows'[Find(rows, send.job.messageId)].dispatchState == rows[Find(rows, send.job.messageId)].dispatchState
    ensures IsInFlight(rows', send)
  {
    var i := Find(rows, send.job.messageId);
    FindGrows(rows, rows', send.job.messageId);
    JobStays(rows[i], rows'[i]);
  }

  /** Rows that only evolve keep the table well formed when each new state fits its guid. */
  lemma TableStays(rows: seq<OutboundRow>, rows': seq<OutboundRow>)
    requires TableOk(rows) && RowsEvolve(rows, rows') && |rows'| == |rows|
    requires forall i :: 0 <= i < |rows| ==>
               rows'[i].dispatchState != Stalled && rows'[i].dispatchState != Legacy
               && (rows'[i].guid.Some? <==> rows'[i].dispatchState == Bound)
    ensures TableOk(rows')
  {
  }

  lemma SendsStay(rows: seq<OutboundRow>, rows': seq<OutboundRow>, sends: seq<string>)
    requires RowsEvolve(rows, rows') && SendsOk(rows, sends)
    ensures SendsOk(rows', sends)
  {
  }

  lemma InitialInv(w: World)
    requires Initial(w)
    ensures Inv(w)
  {
  }

  lemma RequestInv(sha: Digest, w: World, job: SendJob, now: string)
    requires Inv(w)
    ensures Inv(ApplyRequest(sha, w, job, now))
  {
    var w' := ApplyRequest(sha, w, job, now);
    var rows, rows' := w.db.outbound, w'.db.outbound;
    if rows' != rows {
      NewRowDecodes(job, now);
      assert rows' == rows + [NewRow(job, now)];
      PcStays(rows, rows', w.sends, w.pc);
      SendsStay(rows, rows', w.sends);
    }
  }

  predicate StateFits(row: OutboundRow) {
    row.dispatchState != Stalled && row.dispatchState != Legacy
    && (row.guid.Some? <==> row.dispatchState == Bound)
  }

  /** The worker moves one row. */
  lemma OneRow(rows: seq<OutboundRow>, sends: seq<string>, i: nat, row: OutboundRow)
    requires TableOk(rows) && SendsOk(rows, sends) && i < |rows|
    requires Evolves(rows[i], row) && StateFits(row)
    ensures TableOk(rows[i := row]) && SendsOk(rows[i := row], sends)
    ensures Find(rows[i := row], row.messageId) == i && JobOf(row) == JobOf(rows[i])
  {
    assert WellFormedRow(rows[i]);
    JobStays(rows[i], row);
    SendsStay(rows, rows[i := row], sends);
    FindAt(rows[i := row], i);
  }

  lemma OthersStay(rows: seq<OutboundRow>, i: nat, row: OutboundRow, todo: seq<DurableSend>)
    requires i < |rows| && row.messageId == rows[i].messageId && AllInFlight(rows, todo)
    requires forall k :: 0 <= k < |todo| ==> todo[k].job.messageId != row.messageId
    ensures AllInFlight(rows[i := row], todo)
  {
    forall k | 0 <= k < |todo| ensures IsInFlight(rows[i := row], todo[k]) {
      assert IsInFlight(rows, todo[k]);
      FindSame(rows, rows[i := row], todo[k].job.messageId);
    }
  }

  lemma ClaimInv(w: World)
    requires Inv(w) && w.pc.Captured?
    ensures Inv(ApplyClaim(w))
    ensures ApplyClaim(w).pc.Claimed?
  {
    var rows := w.db.outbound;
    var i := Find(rows, w.pc.job.messageId);
    assert WellFormedRow(rows[i]);
    assert Count(w.sends, w.pc.job.messageId) <= 1;
    OneRow(rows, w.sends, i, rows[i].(dispatchState := Dispatching, preRowid := w.pc.pre));
  }

  lemma SendInv(sha: Digest, w: World, a: Action)
    requires Inv(w) && a.Send? && Enabled(w, a)
    ensures Inv(Apply(sha, w, a))
  {
    var id := w.pc.job.messageId;
    forall other ensures Count(w.sends + [id], other) == Count(w.sends, other) + if other == id then 1 else 0 {
    }
  }

  /** Recording an outcome moves the claimed row and no other. */
  lemma AcceptanceInv(sha: Digest, w: World, a: Action)
    requires Inv(w) && a.RecordAcceptance? && Enabled(w, a)
    ensures Inv(Apply(sha, w, a))
  {
    var rows := w.db.outbound;
    var i := Find(rows, w.pc.job.messageId);
    assert WellFormedRow(rows[i]);
    OneRow(rows, w.sends, i, rows[i].(dispatchState := SentUnbound));
  }

  lemma FailureInv(sha: Digest, w: World, a: Action)
    requires Inv(w) && a.RecordFailure? && Enabled(w, a)
    ensures Inv(Apply(sha, w, a))
  {
    var rows := w.db.outbound;
    var i := Find(rows, w.pc.job.messageId);
    assert WellFormedRow(rows[i]);
    OneRow(rows, w.sends, i, rows[i].(dispatchState := DispatchState.Refused, lastStatus := Failed));
  }

  lemma TailInFlight(rows: seq<OutboundRow>, todo: seq<DurableSend>)
    requires todo != [] && AllInFlight(rows, todo)
    ensures AllInFlight(rows, todo[1..])
  {
  }

  lemma BindInv(w: World, fault: bool, now: string)
    requires Inv(w) && w.pc.Found? && w.pc.todo != []
    ensures Inv(ApplyBind(w, fault, now))
  {
    var rows, todo, found := w.db.outbound, w.pc.todo, w.pc.row;
    TailInFlight(rows, todo);
    if !fault {
      assert IsInFlight(rows, todo[0]);
      var i := Find(rows, todo[0].job.messageId);
      assert WellFormedRow(rows[i]);
      var row := rows[i].(guid := Some(found.guid), rowid := Some(found.rowid), chatId := found.chatId,
                          lastStatus := Sent, dispatchState := Bound);
      OneRow(rows, w.sends, i, row);
      OthersStay(rows, i, row, todo[1..]);
    }
  }

  lemma CorrelateInv(sha: Digest, w: World, a: Action)
    requires Inv(w) && a.Correlate? && Enabled(w, a)
    ensures Inv(Apply(sha, w, a))
  {
    var w' := Apply(sha, w, a);
    var mail := w.mail[0];
    AdvanceEvolves(w.db, mail.guid, mail.status, mail.timestamp, a.now);
    TableStays(w.db.outbound, w'.db.outbound);
    PcStays(w.db.outbound, w'.db.outbound, w.sends, w.pc);
    SendsStay(w.db.outbound, w'.db.outbound, w.sends);
  }

  // What recovery picks up

  lemma InsertRowMembers(row: OutboundRow, sorted: seq<OutboundRow>)
    ensures forall r :: r in InsertRow(row, sorted) <==> r == row || r in sorted
  {
  }

  lemma {:induction false} InsertRowDistinct(row: OutboundRow, sorted: seq<OutboundRow>)
    requires DistinctIds(sorted) && forall k :: 0 <= k < |sorted| ==> sorted[k].messageId != row.messageId
    ensures DistinctIds(InsertRow(row, sorted))
    ensures forall r :: r in InsertRow(row, sorted) <==> r == row || r in sorted
  {
    InsertRowMembers(row, sorted);
    if sorted != [] && !Before(row, sorted[0]) {
      InsertRowDistinct(row, sorted[1..]);
      InsertRowMembers(row, sorted[1..]);
      var tail := InsertRow(row, sorted[1..]);
      forall k | 0 <= k < |tail| ensures tail[k].messageId != sorted[0].messageId {
        assert tail[k] in tail;
      }
    }
  }

  lemma {:induction false} InFlightRowsExactly(rows: seq<OutboundRow>)
    requires DistinctIds(rows)
    ensures DistinctIds(InFlightRows(rows))
    ensures forall r :: r in InFlightRows(rows) <==> r in rows && InFlight(r.dispatchState)
  {
    if rows != [] {
      InFlightRowsExactly(rows[1..]);
      var rest := InFlightRows(rows[1..]);
      assert rows == [rows[0]] + rows[1..];
      forall k | 0 <= k < |rest| ensures rest[k].messageId != rows[0].messageId {
        assert rest[k] in rows[1..];
      }
      InsertRowDistinct(rows[0], rest);
    }
  }

  lemma {:induction false} DecodeAll(rows: seq<OutboundRow>)
    requires forall k :: 0 <= k < |rows| ==> ToSend(rows[k]).Some?
    ensures |DecodeSends(rows)| == |rows|
    ensures forall k :: 0 <= k < |rows| ==> ToSend(rows[k]) == Some(DecodeSends(rows)[k])
  {
    if rows != [] {
      DecodeAll(rows[1..]);
    }
  }

  lemma PickedRows(rows: seq<OutboundRow>)
    requires TableOk(rows)
    ensures forall k :: 0 <= k < |InFlightRows(rows)| ==>
              var row := InFlightRows(rows)[k]; row in rows && InFlight(row.dispatchState) && ToSend(row).Some?
  {
    var picked := InFlightRows(rows);
    InFlightRowsExactly(rows);
    forall k | 0 <= k < |picked| ensures picked[k] in rows && InFlight(picked[k].dispatchState) && ToSend(picked[k]).Some? {
      assert picked[k] in picked;
      var i :| 0 <= i < |rows| && rows[i] == picked[k];
      assert WellFormedRow(rows[i]);
    }
  }

  lemma SendIsInFlight(rows: seq<OutboundRow>, row: OutboundRow, send: DurableSend)
    requires TableOk(rows) && row in rows && InFlight(row.dispatchState) && ToSend(row) == Some(send)
    ensures IsInFlight(rows, send)
  {
  }

  lemma PickedSends(rows: seq<OutboundRow>, sends: seq<DurableSend>)
    requires TableOk(rows) && sends == DecodeSends(InFlightRows(rows))
    ensures |sends| == |InFlightRows(rows)| && forall k :: 0 <= k < |sends| ==> ToSend(InFlightRows(rows)[k]) == Some(sends[k])
  {
    PickedRows(rows);
    DecodeAll(InFlightRows(rows));
  }

  lemma NoneLeftOut(rows: seq<OutboundRow>, row: OutboundRow) returns (k: nat)
    requires TableOk(rows) && row in rows && InFlight(row.dispatchState)
    ensures k < |InFlightRows(rows)| && InFlightRows(rows)[k] == row
  {
    InFlightRowsExactly(rows);
    assert row in InFlightRows(rows);
    k :| k < |InFlightRows(rows)| && InFlightRows(rows)[k] == row;
  }

  lemma SendsAreDistinct(rows: seq<OutboundRow>, sends: seq<DurableSend>)
    requires TableOk(rows) && sends == DecodeSends(InFlightRows(rows))
    ensures forall k, l :: 0 <= k < l < |sends| ==> sends[k].job.messageId != sends[l].job.messageId
  {
    InFlightRowsExactly(rows);
    PickedSends(rows, sends);
    var picked := InFlightRows(rows);
    forall k, l | 0 <= k < l < |sends| ensures sends[k].job.messageId != sends[l].job.messageId {
      assert picked[k].messageId != picked[l].messageId;
      SendKeepsId(picked[k], sends[k]);
      SendKeepsId(picked[l], sends[l]);
    }
  }

  lemma SendKeepsId(row: OutboundRow, send: DurableSend)
    requires ToSend(row) == Some(send)
    ensures send.job.messageId == row.messageId
  {
  }

  /** Recovery picks up every row in flight, once. */
  lemma RecoveryExactly(db: Db)
    requires TableOk(db.outbound)
    ensures AllInFlight(db.outbound, RecoverableSends(db))
    ensures forall i :: 0 <= i < |db.outbound| && InFlight(db.outbound[i].dispatchState) ==>
              exists k :: 0 <= k < |RecoverableSends(db)| && ToSend(db.outbound[i]) == Some(RecoverableSends(db)[k])
  {
    var rows, sends := db.outbound, RecoverableSends(db);
    PickedRows(rows);
    PickedSends(rows, sends);
    SendsAreDistinct(rows, sends);
    forall k | 0 <= k < |sends| ensures IsInFlight(rows, sends[k]) {
      SendIsInFlight(rows, InFlightRows(rows)[k], sends[k]);
    }
    forall i | 0 <= i < |rows| && InFlight(rows[i].dispatchState)
      ensures exists k :: 0 <= k < |sends| && ToSend(rows[i]) == Some(sends[k])
    {
      var k := NoneLeftOut(rows, rows[i]);
      assert ToSend(rows[i]) == Some(sends[k]);
    }
  }

  lemma {:induction false} FirstWaitingIsWaiting(db: Db)
    requires TableOk(db.outbound) && NextQueued(db).Some?
    ensures HasState(db.outbound, NextQueued(db).value.job, Waiting)
  {
  }

  lemma StepInv(sha: Digest, w: World, a: Action)
    requires Inv(w) && Enabled(w, a)
    ensures Inv(Apply(sha, w, a))
  {
    match a
    case Request(job, now) => RequestInv(sha, w, job, now);
    case Load => FirstWaitingIsWaiting(w.db);
    case Claim(fault) => if !fault { ClaimInv(w); }
    case Send(_, _) => SendInv(sha, w, a);
    case RecordAcceptance(_, _) => AcceptanceInv(sha, w, a);
    case RecordFailure(_, _) => FailureInv(sha, w, a);
    case Recover => RecoveryExactly(w.db);
    case Resolve(_) =>
      TailInFlight(w.db.outbound, w.pc.todo);
    case Bind(fault, now) => BindInv(w, fault, now);
    case Correlate(_, _) => CorrelateInv(sha, w, a);
    case MigrateStep => NothingStalled(w.db);
    case _ =>
  }

  /** On a database created by this code the migration of old sends finds nothing. */
  lemma NothingStalled(db: Db)
    requires TableOk(db.outbound)
    ensures MigrateUnknown(db) == db
  {
    assert MigrateUnknown(db).outbound == db.outbound;
  }

  lemma {:induction false} RunInv(sha: Digest, ws: seq<World>, acts: seq<Action>, i: nat)
    requires IsRun(sha, ws, acts) && i < |ws|
    ensures Inv(ws[i])
  {
    if i == 0 {
      InitialInv(ws[0]);
    } else {
      RunInv(sha, ws, acts, i - 1);
      StepInv(sha, ws[i - 1], acts[i - 1]);
    }
  }

  /** Over all runs, with crashes and restarts anywhere, the sender is invoked at most once
      for each message id, and never for a message that is still queued or unknown. */
  lemma AtMostOnceDispatch(sha: Digest, ws: seq<World>, acts: seq<Action>, i: nat, id: string)
    requires IsRun(sha, ws, acts) && i < |ws|
    ensures Count(ws[i].sends, id) <= 1
    ensures Count(ws[i].sends, id) == 1 ==> LeftQueue(ws[i].db.outbound, id)
  {
    RunInv(sha, ws, acts, i);
    assert Count(ws[i].sends, id) <= 1;
  }

  /** Only a claim that took the row out of the queue leads to an invocation of the sender:
      the worker has held that claim, uninterrupted by a crash, ever since. */
  lemma {:induction false} OnlyAClaimEnablesDispatch(sha: Digest, ws: seq<World>, acts: seq<Action>, i: nat) returns (j: nat)
    requires IsRun(sha, ws, acts) && i < |ws| && ws[i].pc.Claimed?
    ensures j < i && acts[j] == Claim(false)
    ensures HasState(ws[j].db.outbound, ws[i].pc.job, Waiting)
    ensures HasState(ws[j + 1].db.outbound, ws[i].pc.job, Dispatching)
    ensures forall k :: j < k <= i ==> ws[k].pc == ws[i].pc
  {
    assert ws[i] == Apply(sha, ws[i - 1], acts[i - 1]);
    if ws[i - 1].pc.Claimed? {
      assert ws[i - 1].pc == ws[i].pc;
      j := OnlyAClaimEnablesDispatch(sha, ws, acts, i - 1);
    } else {
      j := i - 1;
      assert acts[j] == Claim(false);
      RunInv(sha, ws, acts, j);
      RunInv(sha, ws, acts, i);
    }
  }
}
