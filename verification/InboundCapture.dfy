/** No inbound message is lost, over all runs of the receive system. */
module InboundCapture {
  import opened Wrappers
  import opened Model
  import opened Journal
  import opened InboundEvent
  import opened Receive

  predicate Receives(event: Event, guid: string) {
    event.event == ReceivedEvent && event.messageId == guid
  }

  predicate HasEvent(journal: seq<Event>, guid: string) {
    exists k :: 0 <= k < |journal| && Receives(journal[k], guid)
  }

  predicate EntryOk(w: World, st: State, p: PendingInbound) {
    p.rowid in w.ids && w.ids[p.rowid].guid == p.guid && p.rowid <= st.lastSeen
    && p.attempts <= U32_MAX && (p.quarantinedAt.Some? <==> p.attempts >= QUARANTINE_AFTER_ATTEMPTS)
  }

  ghost predicate DistinctPending(pending: seq<PendingInbound>) {
    forall k, l :: 0 <= k < l < |pending| ==> pending[k].guid != pending[l].guid
  }

  ghost predicate StateOk(w: World, st: State) {
    0 <= st.lastSeen <= w.top && DistinctPending(st.pending)
    && forall k :: 0 <= k < |st.pending| ==> EntryOk(w, st, st.pending[k])
  }

  /** Every inbound row above the base and up to the watermark is journaled or pending. */
  ghost predicate Covered(w: World, st: State) {
    forall r :: r in w.chat && r in w.ids && w.ids[r].inbound && st.base < r <= st.lastSeen ==>
      HasEvent(w.journal, w.ids[r].guid) || HasPending(st.pending, w.ids[r].guid)
  }

  /** An entry of `st` is still in `st'`, at least as old, unless its event was journaled. */
  ghost predicate Kept(journal: seq<Event>, p: PendingInbound, pending: seq<PendingInbound>) {
    HasEvent(journal, p.guid)
    || exists k :: 0 <= k < |pending| && pending[k].guid == p.guid && pending[k].rowid == p.rowid
                   && pending[k].attempts >= p.attempts
  }

  ghost predicate Advances(journal: seq<Event>, st: State, st': State) {
    forall k :: 0 <= k < |st.pending| ==> Kept(journal, st.pending[k], st'.pending)
  }

  predicate RowOk(w: World, row: Row) {
    row.rowid in w.ids && w.ids[row.rowid] == IdentityOf(row)
  }

  ghost predicate RowsOk(w: World, rows: seq<Row>, from: int, upto: int) {
    Ascending(rows) && upto <= w.top
    && forall k :: 0 <= k < |rows| ==> RowOk(w, rows[k]) && from < rows[k].rowid <= upto
  }

  /** The rows still to be handled include everything chat.db has between the two ROWIDs. */
  ghost predicate Includes(w: World, rows: seq<Row>, from: int, upto: int) {
    forall r :: r in w.chat && from < r <= upto ==> exists k :: 0 <= k < |rows| && rows[k].rowid == r
  }

  predicate Awaited(sink: seq<Event>, guid: string) {
    sink != [] && sink[|sink| - 1].messageId == guid
  }

  predicate AckOk(w: World, ack: Option<bool>, guid: string) {
    match ack
    case None => Awaited(w.sink, guid)
    case Some(ok) => ok ==> HasEvent(w.journal, guid)
  }

  ghost predicate NextOk(w: World, next: State) {
    StateOk(w, next) && Covered(w, next) && Advances(w.journal, w.mem, next)
    && next.base == w.mem.base && next.lastSeen >= w.mem.lastSeen
  }

  ghost predicate TodoOk(w: World, todo: seq<PendingInbound>) {
    forall k :: 0 <= k < |todo| ==> todo[k].rowid in w.ids && w.ids[todo[k].rowid].guid == todo[k].guid
  }

  ghost predicate PcOk(w: World) {
    match w.pc
    case Down => true
    case Idle => true
    case Retry(todo, next) => NextOk(w, next) && next.lastSeen == w.mem.lastSeen && TodoOk(w, todo)
    case RetryWait(p, ack, todo, next) =>
      NextOk(w, next) && next.lastSeen == w.mem.lastSeen && TodoOk(w, [p] + todo) && AckOk(w, ack, p.guid)
    case Scan(rows, upto) => RowsOk(w, rows, w.mem.lastSeen, upto) && Includes(w, rows, w.mem.lastSeen, upto)
    case ScanWait(row, ack, rows, upto) =>
      RowsOk(w, [row] + rows, w.mem.lastSeen, upto) && Includes(w, [row] + rows, w.mem.lastSeen, upto)
      && row.isFromMe == 0 && AckOk(w, ack, row.guid)
    case ScanSave(next, rows, upto) =>
      NextOk(w, next) && next.lastSeen > w.mem.lastSeen
      && RowsOk(w, rows, next.lastSeen, upto) && Includes(w, rows, next.lastSeen, upto)
  }

  function Saved(w: World): State {
    if w.disk.Some? then w.disk.value else DEFAULT_STATE
  }

  predicate SinkOk(sink: seq<Event>) {
    forall k :: 0 <= k < |sink| ==> ValidPublicEvent(sink[k]) && sink[k].event == ReceivedEvent
  }

  ghost predicate Inv(w: World) {
    IdsOk(w) && SinkOk(w.sink) && StateOk(w, Saved(w)) && Covered(w, Saved(w)) && PcOk(w)
    && (!w.pc.Down? ==> StateOk(w, w.mem) && Covered(w, w.mem) && (w.mem == Saved(w) || Saved(w).lastSeen == 0))
  }

  // Frames

  /** ROWIDs and journal entries are only added. */
  ghost predicate Grows(w: World, w': World) {
    w.top <= w'.top && w.journal <= w'.journal
    && (forall r :: r in w.ids ==> r in w'.ids && w'.ids[r] == w.ids[r])
    && forall r :: r in w'.chat ==> r in w.chat || r > w.top
  }

  lemma StepGrows(w: World, a: Action)
    requires IdsOk(w) && Enabled(w, a)
    ensures Grows(w, Apply(w, a))
  {
    ChatIsForeign(w, a);
    if a.Insert? { assert a.row.rowid !in w.ids; }
  }

  lemma EventStays(journal: seq<Event>, journal': seq<Event>, guid: string)
    requires journal <= journal' && HasEvent(journal, guid)
    ensures HasEvent(journal', guid)
  {
  }

  lemma StateStays(w: World, w': World, st: State)
    requires Grows(w, w') && StateOk(w, st)
    ensures StateOk(w', st)
  {
  }

  lemma CoverStays(w: World, w': World, st: State)
    requires Grows(w, w') && st.lastSeen <= w.top && IdsOk(w) && Covered(w, st)
    ensures Covered(w', st)
  {
  }

  lemma NextStays(w: World, w': World, next: State)
    requires Grows(w, w') && IdsOk(w) && NextOk(w, next) && w'.mem == w.mem
    ensures NextOk(w', next)
  {
  }

  lemma RowsStay(w: World, w': World, rows: seq<Row>, from: int, upto: int)
    requires Grows(w, w') && RowsOk(w, rows, from, upto) && Includes(w, rows, from, upto)
    ensures RowsOk(w', rows, from, upto) && Includes(w', rows, from, upto)
  {
  }

  predicate SameLast(sink: seq<Event>, sink': seq<Event>) {
    sink != [] ==> sink' != [] && sink'[|sink'| - 1] == sink[|sink| - 1]
  }

  lemma PcStays(w: World, w': World)
    requires Grows(w, w') && IdsOk(w) && PcOk(w) && w'.mem == w.mem && w'.pc == w.pc
    requires Waiting(w.pc) && w.pc.ack.None? ==> SameLast(w.sink, w'.sink)
    ensures PcOk(w')
  {
    match w.pc
    case Retry(_, next) => NextStays(w, w', next);
    case RetryWait(p, ack, _, next) =>
      NextStays(w, w', next);
      if ack == Some(true) { EventStays(w.journal, w'.journal, p.guid); }
    case Scan(rows, upto) => RowsStay(w, w', rows, w.mem.lastSeen, upto);
    case ScanWait(row, ack, rows, upto) =>
      RowsStay(w, w', [row] + rows, w.mem.lastSeen, upto);
      if ack == Some(true) { EventStays(w.journal, w'.journal, row.guid); }
    case ScanSave(next, rows, upto) =>
      NextStays(w, w', next);
      RowsStay(w, w', rows, next.lastSeen, upto);
    case _ =>
  }

  /** Everything but the program counter and the sink survives any growth of the world. */
  lemma BaseStays(w: World, w': World)
    requires Inv(w) && Grows(w, w') && w'.disk == w.disk && w'.mem == w.mem
    ensures StateOk(w', Saved(w')) && Covered(w', Saved(w'))
    ensures !w.pc.Down? ==> StateOk(w', w'.mem) && Covered(w', w'.mem)
  {
  }

  /** A step that keeps disk and memory keeps the invariant when it keeps the counter's. */
  lemma Reassemble(w: World, w': World)
    requires Inv(w) && Grows(w, w') && w'.disk == w.disk && w'.mem == w.mem
    requires IdsOk(w') && SinkOk(w'.sink) && PcOk(w') && (w.pc.Down? ==> w'.pc.Down?)
    ensures Inv(w')
  {
    BaseStays(w, w');
  }

  // The other actors

  lemma ChatInv(w: World, a: Action)
    requires Inv(w) && Enabled(w, a) && ChangesChat(a)
    ensures Inv(Apply(w, a))
  {
    var w' := Apply(w, a);
    StepIds(w, a);
    StepGrows(w, a);
    ChatIsForeign(w, a);
    BaseStays(w, w');
    PcStays(w, w');
  }

  /** The awaited request was processed: the worker's facts with the answer in place. */
  lemma AnswerInv(w: World, w': World, ok: bool)
    requires Inv(w) && Waiting(w.pc) && w.pc.ack.None? && Grows(w, w') && w'.mem == w.mem
    requires w'.pc == Answered(w, ok).pc
    requires ok ==> HasEvent(w'.journal, if w.pc.RetryWait? then w.pc.pending.guid else w.pc.row.guid)
    ensures PcOk(w')
  {
  }

  lemma CommitPc(w: World, write: Write)
    requires Inv(w) && w.sink != [] && Grows(w, ApplyCommit(w, write))
    ensures PcOk(ApplyCommit(w, write))
  {
    var w' := ApplyCommit(w, write);
    if |w.sink| == 1 && Waiting(w.pc) && w.pc.ack.None? {
      if !write.Lost? { assert w'.journal[|w.journal|] == w.sink[0]; }
      AnswerInv(w, w', write.Acknowledged?);
    } else {
      PcStays(w, w');
    }
  }

  lemma CommitInv(w: World, write: Write)
    requires Inv(w) && w.sink != []
    ensures Inv(ApplyCommit(w, write))
  {
    StepIds(w, Commit(write));
    StepGrows(w, Commit(write));
    CommitFrame(w, write);
    CommitPc(w, write);
    Reassemble(w, ApplyCommit(w, write));
  }

  lemma CommitFrame(w: World, write: Write)
    requires SinkOk(w.sink) && w.sink != []
    ensures var w' := ApplyCommit(w, write);
            w'.disk == w.disk && w'.mem == w.mem && SinkOk(w'.sink) && (w.pc.Down? ==> w'.pc.Down?)
  {
  }

  lemma DeathInv(w: World)
    requires Inv(w)
    ensures Inv(Apply(w, EmitterDies))
  {
    var w' := Apply(w, EmitterDies);
    StepIds(w, EmitterDies);
    StepGrows(w, EmitterDies);
    BaseStays(w, w');
    if Waiting(w.pc) && w.pc.ack.None? {
      AnswerInv(w, w', false);
    } else {
      PcStays(w, w');
    }
  }

  lemma CrashInv(w: World)
    requires Inv(w) && !w.pc.Down?
    ensures Inv(Apply(w, Crash))
  {
  }

  /** First run: the watermark starts at the current tail, where nothing is promised yet. */
  lemma StartInv(w: World, read: Option<int>, saved: bool)
    requires Inv(w) && w.pc.Down? && (read.Some? ==> Receive.IsMaxRowid(w.chat, read.value))
    ensures Inv(ApplyStart(w, read, saved))
  {
    var w' := ApplyStart(w, read, saved);
    if Saved(w).lastSeen == 0 {
      PendingIsAboveZero(w, Saved(w));
      assert StateOk(w', w'.mem);
    } else {
      StateStays(w, w', Saved(w));
      CoverStays(w, w', Saved(w));
    }
  }

  lemma PendingIsAboveZero(w: World, st: State)
    requires IdsOk(w) && StateOk(w, st)
    ensures st.pending != [] ==> st.lastSeen > 0
  {
    if st.pending != [] {
      assert EntryOk(w, st, st.pending[0]);
    }
  }

  // The enrichment pass

  lemma BumpKeeps(w: World, next: State, p: PendingInbound, reason: string, now: string)
    requires NextOk(w, next)
    ensures NextOk(w, AfterFailure(next, p, reason, now))
  {
  }

  lemma {:induction false} WithoutDistinct(pending: seq<PendingInbound>, guid: string)
    requires DistinctPending(pending)
    ensures DistinctPending(Without(pending, guid))
  {
    if pending != [] {
      WithoutDistinct(pending[1..], guid);
      var tail := Without(pending[1..], guid);
      forall k | 0 <= k < |tail| ensures tail[k].guid != pending[0].guid {
        assert tail[k] in tail;
        assert tail[k] in pending[1..];
      }
    }
  }

  lemma RemoveKeeps(w: World, next: State, guid: string)
    requires NextOk(w, next) && HasEvent(w.journal, guid)
    ensures NextOk(w, next.(pending := Without(next.pending, guid)))
  {
    var st := next.(pending := Without(next.pending, guid));
    WithoutDistinct(next.pending, guid);
    forall k | 0 <= k < |st.pending| ensures EntryOk(w, st, st.pending[k]) {
      assert st.pending[k] in st.pending;
      var l :| 0 <= l < |next.pending| && next.pending[l] == st.pending[k];
      assert EntryOk(w, next, next.pending[l]);
    }
    forall g | HasPending(next.pending, g) && g != guid ensures HasPending(st.pending, g) {
      var l :| 0 <= l < |next.pending| && next.pending[l].guid == g;
      assert next.pending[l] in st.pending;
    }
    forall k | 0 <= k < |w.mem.pending| ensures Kept(w.journal, w.mem.pending[k], st.pending) {
      var m := w.mem.pending[k];
      assert Kept(w.journal, m, next.pending);
      if !HasEvent(w.journal, m.guid) {
        var l :| 0 <= l < |next.pending| && next.pending[l].guid == m.guid && next.pending[l].rowid == m.rowid
                 && next.pending[l].attempts >= m.attempts;
        assert next.pending[l] in st.pending;
      }
    }
  }

  lemma BeginRetryInv(w: World)
    requires Inv(w) && w.pc.Idle?
    ensures Inv(Apply(w, BeginRetry))
  {
  }

  lemma SentToSink(w: World, event: Event, row: Row, timestamp: string)
    requires SinkOk(w.sink) && row.guid != "" && EventOf(row, timestamp) == Success(event)
    ensures SinkOk(w.sink + [event]) && Awaited(w.sink + [event], row.guid)
  {
  }

  lemma RetryRowInv(w: World, readable: bool, closed: bool, timestamp: string, now: string)
    requires Inv(w) && w.pc.Retry? && w.pc.todo != []
    ensures Inv(ApplyRetryRow(w, readable, closed, timestamp, now))
  {
    var w' := ApplyRetryRow(w, readable, closed, timestamp, now);
    var p, todo, next := w.pc.todo[0], w.pc.todo[1..], w.pc.next;
    assert [p] + todo == w.pc.todo;
    assert Grows(w, w');
    BaseStays(w, w');
    match RetryOutcome(w, p, readable, closed, timestamp)
    case Failure(reason) =>
      BumpKeeps(w, next, p, reason, now);
      NextStays(w, w', w'.pc.next);
    case Success(event) =>
      NextStays(w, w', next);
      SentToSink(w, event, w.chat[p.rowid], timestamp);
  }

  lemma RetryAnswerInv(w: World, a: Action)
    requires Inv(w) && Enabled(w, a) && (a.RetryAck? || a.RetryTimeout?)
    ensures Inv(Apply(w, a))
  {
    var w' := Apply(w, a);
    RetryAnswerNext(w, a);
    TodoTail(w, w.pc.pending, w.pc.todo);
    RetryAnswerFrame(w, a);
    NextStays(w, w', w'.pc.next);
    Reassemble(w, w');
  }

  lemma TodoTail(w: World, p: PendingInbound, todo: seq<PendingInbound>)
    requires TodoOk(w, [p] + todo)
    ensures TodoOk(w, todo)
  {
    forall k | 0 <= k < |todo| ensures todo[k] == ([p] + todo)[k + 1] {}
  }

  lemma RetryAnswerFrame(w: World, a: Action)
    requires IdsOk(w) && Enabled(w, a) && (a.RetryAck? || a.RetryTimeout?)
    ensures var w' := Apply(w, a);
            Grows(w, w') && IdsOk(w') && w'.sink == w.sink && w'.disk == w.disk && w'.mem == w.mem
            && w'.ids == w.ids && w'.pc.Retry? && w'.pc.todo == w.pc.todo
            && w'.pc.next.lastSeen == w.pc.next.lastSeen
  {
  }

  lemma RetryAnswerNext(w: World, a: Action)
    requires Inv(w) && Enabled(w, a) && (a.RetryAck? || a.RetryTimeout?)
    ensures NextOk(w, Apply(w, a).pc.next)
  {
    var p, next := w.pc.pending, w.pc.next;
    if w.pc.ack == Some(true) {
      RemoveKeeps(w, next, p.guid);
    } else {
      BumpKeeps(w, next, p, "journal failed", a.now);
    }
  }

  lemma RetrySaveInv(w: World, saved: bool)
    requires Inv(w) && Enabled(w, RetrySave(saved))
    ensures Inv(Apply(w, RetrySave(saved)))
  {
    var w' := Apply(w, RetrySave(saved));
    if saved {
      StateStays(w, w', w.pc.next);
      CoverStays(w, w', w.pc.next);
    } else {
      BaseStays(w, w');
    }
  }

  // The scan

  lemma BeginScanInv(w: World, rows: seq<Row>)
    requires Inv(w) && Enabled(w, BeginScan(rows))
    ensures Inv(Apply(w, BeginScan(rows)))
  {
    var w' := Apply(w, BeginScan(rows));
    BaseStays(w, w');
    forall k | 0 <= k < |rows| ensures RowOk(w', rows[k]) && w.mem.lastSeen < rows[k].rowid <= w.top {
      assert rows[k].rowid in w.chat;
    }
  }

  lemma HeadAndTail(w: World, row: Row, rows: seq<Row>, from: int, upto: int)
    requires RowsOk(w, [row] + rows, from, upto)
    ensures from < row.rowid <= upto && RowOk(w, row) && RowsOk(w, rows, row.rowid, upto)
  {
    var all := [row] + rows;
    assert all[0] == row && forall k :: 0 <= k < |rows| ==> rows[k] == all[k + 1];
  }

  /** Handling the first row of the snapshot: nothing lies between the watermark and it. */
  lemma NothingBetween(w: World, row: Row, rows: seq<Row>, from: int, upto: int)
    requires RowsOk(w, [row] + rows, from, upto) && Includes(w, [row] + rows, from, upto)
    ensures Includes(w, rows, row.rowid, upto)
    ensures forall r :: r in w.chat && from < r <= row.rowid ==> r == row.rowid
  {
    var all := [row] + rows;
    HeadAndTail(w, row, rows, from, upto);
    assert forall k :: 0 <= k < |all| ==> all[k] == if k == 0 then row else rows[k - 1];
    forall r | r in w.chat && row.rowid < r <= upto ensures exists k :: 0 <= k < |rows| && rows[k].rowid == r {
      var k :| 0 <= k < |all| && all[k].rowid == r;
      assert rows[k - 1].rowid == r;
    }
    forall r | r in w.chat && from < r <= row.rowid ensures r == row.rowid {
      var k :| 0 <= k < |all| && all[k].rowid == r;
    }
  }

  /** The watermark moves over one row that is outbound, journaled or now pending. */
  lemma MovePast(w: World, next: State, row: Row, rows: seq<Row>, upto: int)
    requires Inv(w) && !w.pc.Down?
    requires RowsOk(w, [row] + rows, w.mem.lastSeen, upto) && Includes(w, [row] + rows, w.mem.lastSeen, upto)
    requires next.lastSeen == row.rowid && next.base == w.mem.base && StateOk(w, next)
    requires w.mem.pending <= next.pending
    requires row.isFromMe != 0 || HasEvent(w.journal, row.guid) || HasPending(next.pending, row.guid)
    ensures PcOk(w.(pc := ScanSave(next, rows, upto)))
  {
    HeadAndTail(w, row, rows, w.mem.lastSeen, upto);
    NothingBetween(w, row, rows, w.mem.lastSeen, upto);
    var w' := w.(pc := ScanSave(next, rows, upto));
    forall guid | HasPending(w.mem.pending, guid) ensures HasPending(next.pending, guid) {
      var k :| 0 <= k < |w.mem.pending| && w.mem.pending[k].guid == guid;
      assert next.pending[k].guid == guid;
    }
    assert Covered(w', next) by {
      forall r | r in w'.chat && r in w'.ids && w'.ids[r].inbound && next.base < r <= next.lastSeen
        ensures HasEvent(w'.journal, w'.ids[r].guid) || HasPending(next.pending, w'.ids[r].guid)
      {
        if r > w.mem.lastSeen { assert r == row.rowid; }
      }
    }
    forall k | 0 <= k < |w.mem.pending| ensures Kept(w'.journal, w.mem.pending[k], next.pending) {
      assert next.pending[k] == w.mem.pending[k];
    }
    assert NextOk(w', next) by { StateStays(w, w', next); }
    RowsStay(w, w', rows, next.lastSeen, upto);
  }

  lemma CapturedOk(w: World, row: Row, reason: string, now: string)
    requires IdsOk(w) && StateOk(w, w.mem) && RowOk(w, row) && w.mem.lastSeen < row.rowid <= w.top
    ensures StateOk(w, w.mem.(lastSeen := row.rowid))
    ensures var st := Captured(w.mem, row, reason, now).(lastSeen := row.rowid);
            StateOk(w, st) && HasPending(st.pending, row.guid)
  {
    var st := Captured(w.mem, row, reason, now).(lastSeen := row.rowid);
    var plain := w.mem.(lastSeen := row.rowid);
    forall k | 0 <= k < |w.mem.pending| ensures EntryOk(w, st, w.mem.pending[k]) && EntryOk(w, plain, w.mem.pending[k]) {
      assert EntryOk(w, w.mem, w.mem.pending[k]);
    }
    if !HasPending(w.mem.pending, row.guid) {
      assert st.pending[|w.mem.pending|].guid == row.guid;
    }
  }

  /** A row is done with: the counter moves to the save that covers it. */
  lemma CoveredInv(w: World, next: State, row: Row, rows: seq<Row>, upto: int, w': World)
    requires Inv(w) && !w.pc.Down? && w' == w.(pc := ScanSave(next, rows, upto))
    requires RowsOk(w, [row] + rows, w.mem.lastSeen, upto) && Includes(w, [row] + rows, w.mem.lastSeen, upto)
    requires next.lastSeen == row.rowid && next.base == w.mem.base && StateOk(w, next)
    requires w.mem.pending <= next.pending
    requires row.isFromMe != 0 || HasEvent(w.journal, row.guid) || HasPending(next.pending, row.guid)
    ensures Inv(w')
  {
    MovePast(w, next, row, rows, upto);
    Reassemble(w, w');
  }

  /** A row is handed to the journal task. */
  lemma QueuedInv(w: World, event: Event, timestamp: string, row: Row, rows: seq<Row>, upto: int, w': World)
    requires Inv(w) && w.pc == Scan([row] + rows, upto) && row.isFromMe == 0 && EventOf(row, timestamp) == Success(event)
    requires w' == w.(sink := w.sink + [event], pc := ScanWait(row, None, rows, upto))
    ensures Inv(w')
  {
    HeadAndTail(w, row, rows, w.mem.lastSeen, upto);
    assert Grows(w, w');
    SentToSink(w, event, row, timestamp);
    RowsStay(w, w', [row] + rows, w.mem.lastSeen, upto);
    Reassemble(w, w');
  }

  /** The scan stops. */
  lemma StoppedInv(w: World, w': World)
    requires Inv(w) && !w.pc.Down? && w' == w.(pc := Idle, troubles := w'.troubles)
    ensures Inv(w')
  {
    assert Grows(w, w');
    Reassemble(w, w');
  }

  lemma ScanRowInv(w: World, closed: bool, timestamp: string, now: string)
    requires Inv(w) && w.pc.Scan? && w.pc.rows != []
    ensures Inv(ApplyScanRow(w, closed, timestamp, now))
  {
    var row, rows, upto := w.pc.rows[0], w.pc.rows[1..], w.pc.upto;
    assert [row] + rows == w.pc.rows;
    HeadAndTail(w, row, rows, w.mem.lastSeen, upto);
    ScanRowIs(w, row, rows, upto, closed, timestamp, now, ApplyScanRow(w, closed, timestamp, now));
  }

  lemma ScanRowIs(w: World, row: Row, rows: seq<Row>, upto: int, closed: bool, timestamp: string, now: string, w': World)
    requires Inv(w) && w.pc == Scan([row] + rows, upto) && row.rowid > w.mem.lastSeen
    requires w' == ApplyScanRow(w, closed, timestamp, now)
    ensures Inv(w')
  {
    HeadAndTail(w, row, rows, w.mem.lastSeen, upto);
    if row.isFromMe != 0 {
      CapturedOk(w, row, "", now);
      CoveredInv(w, w.mem.(lastSeen := row.rowid), row, rows, upto, w');
    } else {
      InboundRowInv(w, EventOf(row, timestamp), row, rows, upto, closed, timestamp, now, w');
    }
  }

  lemma InboundRowInv(w: World, built: Result<Event, string>, row: Row, rows: seq<Row>, upto: int,
                      closed: bool, timestamp: string, now: string, w': World)
    requires Inv(w) && w.pc == Scan([row] + rows, upto) && row.rowid > w.mem.lastSeen && row.isFromMe == 0
    requires built == EventOf(row, timestamp)
    requires w' == match built
                   case Failure(reason) =>
                     w.(pc := ScanSave(Captured(w.mem, row, reason, now).(lastSeen := row.rowid), rows, upto))
                   case Success(event) =>
                     if closed then w.(pc := Idle, troubles := w.troubles + 1)
                     else w.(sink := w.sink + [event], pc := ScanWait(row, None, rows, upto))
    ensures Inv(w')
  {
    HeadAndTail(w, row, rows, w.mem.lastSeen, upto);
    match built
    case Failure(reason) =>
      CapturedOk(w, row, reason, now);
      CoveredInv(w, w'.pc.next, row, rows, upto, w');
    case Success(event) =>
      if closed { StoppedInv(w, w'); } else { QueuedInv(w, event, timestamp, row, rows, upto, w'); }
  }

  lemma ScanAnswerInv(w: World, a: Action)
    requires Inv(w) && Enabled(w, a) && (a.ScanAck? || a.ScanTimeout?)
    ensures Inv(Apply(w, a))
  {
    var w' := Apply(w, a);
    var row, rows, upto := w.pc.row, w.pc.rows, w.pc.upto;
    if w.pc.ack == Some(true) {
      HeadAndTail(w, row, rows, w.mem.lastSeen, upto);
      CapturedOk(w, row, "", "");
      CoveredInv(w, w'.pc.next, row, rows, upto, w');
    } else {
      StoppedInv(w, w');
    }
  }

  lemma SaveInv(w: World, saved: bool)
    requires Inv(w) && Enabled(w, Save(saved))
    ensures Inv(Apply(w, Save(saved)))
  {
    var w' := Apply(w, Save(saved));
    if saved {
      StateStays(w, w', w.pc.next);
      CoverStays(w, w', w.pc.next);
      RowsStay(w, w', w.pc.rows, w.pc.next.lastSeen, w.pc.upto);
    } else {
      BaseStays(w, w');
    }
  }

  /** A step that moves the program counter to rest, and nothing durable. */
  lemma RestInv(w: World, a: Action)
    requires Inv(w) && Enabled(w, a) && (a.ScanFails? || a.EndScan?)
    ensures Inv(Apply(w, a))
  {
    BaseStays(w, Apply(w, a));
  }

  lemma RetryStepInv(w: World, a: Action)
    requires Inv(w) && Enabled(w, a)
    requires a.BeginRetry? || a.RetryRow? || a.RetryAck? || a.RetryTimeout? || a.RetrySave?
    ensures Inv(Apply(w, a))
  {
    if a.BeginRetry? {
      BeginRetryInv(w);
    } else if a.RetryRow? {
      RetryRowInv(w, a.readable, a.closed, a.timestamp, a.now);
    } else if a.RetrySave? {
      RetrySaveInv(w, a.saved);
    } else {
      RetryAnswerInv(w, a);
    }
  }

  lemma ScanStepInv(w: World, a: Action)
    requires Inv(w) && Enabled(w, a) && (a.BeginScan? || a.ScanRow? || a.ScanAck? || a.ScanTimeout? || a.Save?)
    ensures Inv(Apply(w, a))
  {
    if a.BeginScan? {
      BeginScanInv(w, a.rows);
    } else if a.ScanRow? {
      ScanRowInv(w, a.closed, a.timestamp, a.now);
    } else if a.Save? {
      SaveInv(w, a.saved);
    } else {
      ScanAnswerInv(w, a);
    }
  }

  lemma StepInv(w: World, a: Action)
    requires Inv(w) && Enabled(w, a)
    ensures Inv(Apply(w, a))
  {
    if ChangesChat(a) {
      ChatInv(w, a);
    } else if a.Commit? {
      CommitInv(w, a.write);
    } else if a.EmitterDies? {
      DeathInv(w);
    } else if a.Crash? {
      CrashInv(w);
    } else if a.Start? {
      StartInv(w, a.read, a.saved);
    } else if a.ScanFails? || a.EndScan? {
      RestInv(w, a);
    } else if a.BeginScan? || a.ScanRow? || a.ScanAck? || a.ScanTimeout? || a.Save? {
      ScanStepInv(w, a);
    } else {
      RetryStepInv(w, a);
    }
  }

  lemma {:induction false} RunInv(ws: seq<World>, acts: seq<Action>, i: nat)
    requires IsRun(ws, acts) && i < |ws|
    ensures Inv(ws[i])
  {
    if i > 0 {
      RunInv(ws, acts, i - 1);
      StepInv(ws[i - 1], acts[i - 1]);
    }
  }

  /** In every run, with crashes, failed saves and journal failures anywhere: every inbound
      row of chat.db above the base and up to the saved watermark is in the journal as
      `message.received` or in the saved pending list. */
  lemma NoInboundLoss(ws: seq<World>, acts: seq<Action>, i: nat, r: int)
    requires IsRun(ws, acts) && i < |ws| && ws[i].disk.Some?
    requires r in ws[i].chat && ws[i].chat[r].isFromMe == 0
    requires ws[i].disk.value.base < r <= ws[i].disk.value.lastSeen
    ensures HasEvent(ws[i].journal, ws[i].chat[r].guid) || HasPending(ws[i].disk.value.pending, ws[i].chat[r].guid)
  {
    RunInv(ws, acts, i);
  }

  /** Of each pending entry, in the saved list and in the worker's copy: its row is at or below
      the watermark, it is quarantined exactly from its ninetieth failed attempt on, and no
      other entry has its guid. */
  lemma PendingIsWellFormed(ws: seq<World>, acts: seq<Action>, i: nat, st: State, k: nat)
    requires IsRun(ws, acts) && i < |ws|
    requires st == Saved(ws[i]) || (st == ws[i].mem && !ws[i].pc.Down?)
    requires k < |st.pending|
    ensures EntryOk(ws[i], st, st.pending[k])
    ensures forall l :: 0 <= l < |st.pending| && l != k ==> st.pending[l].guid != st.pending[k].guid
  {
    RunInv(ws, acts, i);
  }

  /** What one step may do to the saved state. */
  ghost predicate SavedMoves(w: World, w': World) {
    Saved(w).lastSeen <= Saved(w').lastSeen
    && (Saved(w).lastSeen > 0 ==> Saved(w').base == Saved(w).base)
    && Advances(w'.journal, Saved(w), Saved(w'))
  }

  lemma KeepsItself(journal: seq<Event>, st: State)
    ensures Advances(journal, st, st)
  {
  }

  lemma StepSaved(w: World, a: Action)
    requires Inv(w) && Enabled(w, a)
    ensures SavedMoves(w, Apply(w, a))
  {
    var w' := Apply(w, a);
    KeepsItself(w'.journal, Saved(w));
    PendingIsAboveZero(w, Saved(w));
    if a.RetrySave? || a.Save? {
      assert NextOk(w, w.pc.next);
    } else if !a.Start? {
      OnlySavesTouchDisk(w, a);
    }
  }

  lemma OnlySavesTouchDisk(w: World, a: Action)
    requires Enabled(w, a) && !a.RetrySave? && !a.Save? && !a.Start?
    ensures Apply(w, a).disk == w.disk
  {
  }

  /** The saved watermark never decreases, across steps and restarts, and once it is set the
      base is fixed. */
  lemma {:induction false} WatermarkNeverDecreases(ws: seq<World>, acts: seq<Action>, i: nat, j: nat)
    requires IsRun(ws, acts) && i <= j < |ws|
    ensures Saved(ws[i]).lastSeen <= Saved(ws[j]).lastSeen
    ensures Saved(ws[i]).lastSeen > 0 ==> Saved(ws[j]).base == Saved(ws[i]).base
    decreases j - i
  {
    if i < j {
      RunInv(ws, acts, i);
      StepSaved(ws[i], acts[i]);
      WatermarkNeverDecreases(ws, acts, i + 1, j);
    }
  }

  /** An entry leaves the saved pending list only after its event was journaled, and while
      it stays its attempts never decrease. */
  lemma LeavesOnlyJournaled(ws: seq<World>, acts: seq<Action>, i: nat, k: nat)
    requires IsRun(ws, acts) && i < |acts| && k < |Saved(ws[i]).pending|
    ensures Kept(ws[i + 1].journal, Saved(ws[i]).pending[k], Saved(ws[i + 1]).pending)
  {
    RunInv(ws, acts, i);
    StepSaved(ws[i], acts[i]);
  }
}
