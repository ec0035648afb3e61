/** The receive worker as a program. Whatever chat.db, the journal task and the disk answer,
    what it does is a run of the inbound transition system; so every theorem about runs holds
    of it, with a crash after any of its steps. And every step it logs rests on what it was
    answered for that step, and on nothing else. */
module ReceiveWorker {
  import opened Wrappers
  import opened Model
  import opened Journal
  import opened InboundEvent
  import opened Receive
  import opened InboundCapture
  import opened Quarantine
  import opened Recheck

  /** The actors beside the worker: Messages.app and the journal task. */
  predicate Foreign(a: Action) {
    ChangesChat(a) || a.Commit? || a.EmitterDies?
  }

  /** All the others can do to the worker is to answer it. */
  predicate OnlyAnswered(pc: Pc, pc': Pc) {
    || pc' == pc
    || (pc.RetryWait? && pc.ack.None? && pc'.RetryWait? && pc'.ack.Some?
        && pc' == RetryWait(pc.pending, pc'.ack, pc.todo, pc.next))
    || (pc.ScanWait? && pc.ack.None? && pc'.ScanWait? && pc'.ack.Some?
        && pc' == ScanWait(pc.row, pc'.ack, pc.rows, pc.upto))
  }

  predicate Refused(pc: Pc) {
    Waiting(pc) && pc.ack == Some(false)
  }

  /** The worker's state is left alone; at most its request was answered, and refused only
      with trouble. */
  predicate Undisturbed(w: World, w': World) {
    OnlyAnswered(w.pc, w'.pc) && w'.mem == w.mem && w'.disk == w.disk && w'.troubles >= w.troubles
    && (Refused(w'.pc) && !Refused(w.pc) ==> w'.troubles > w.troubles)
  }

  lemma UndisturbedTwice(w: World, v: World, u: World)
    requires Undisturbed(w, v) && Undisturbed(v, u)
    ensures Undisturbed(w, u)
  {
  }

  lemma WrittenAnswers(w: World, write: Write, w': World)
    requires w.sink != [] && w' == Written(w, write, true)
    ensures Undisturbed(w, w')
  {
  }

  lemma ForeignStep(w: World, a: Action, w': World)
    requires Inv(w) && Enabled(w, a) && Foreign(a) && w' == Apply(w, a)
    ensures Undisturbed(w, w')
  {
    if ChangesChat(a) {
      ChatIsForeign(w, a);
    } else if a.Commit? {
      WrittenAnswers(w, a.write, w');
    }
  }

  lemma ForeignAt(ws: seq<World>, acts: seq<Action>, i: nat)
    requires IsRun(ws, acts) && i < |acts| && Foreign(acts[i])
    ensures Undisturbed(ws[i], ws[i + 1])
  {
    RunInv(ws, acts, i);
    ForeignStep(ws[i], acts[i], ws[i + 1]);
  }

  /** Any number of steps of the others. */
  lemma {:induction false} ForeignRun(ws: seq<World>, acts: seq<Action>, i: nat, j: nat)
    requires IsRun(ws, acts) && i <= j < |ws|
    requires forall k :: i <= k < j ==> Foreign(acts[k])
    ensures Undisturbed(ws[i], ws[j])
  {
    if i < j {
      ForeignRun(ws, acts, i, j - 1);
      ForeignAt(ws, acts, j - 1);
      UndisturbedTwice(ws[i], ws[j - 1], ws[j]);
    }
  }

  ghost predicate ForeignFrom(acts: seq<Action>, i: nat) {
    forall k :: i <= k < |acts| ==> Foreign(acts[k])
  }

  /** Nothing chat.db held is above the watermark, and the watermark names a row it held. */
  predicate CaughtUp(chat: map<int, Row>, from: int, to: int) {
    (forall r :: r in chat ==> r <= to) && (to == from || to in chat)
  }

  function Reached(rows: seq<Row>, from: int): int {
    if rows == [] then from else rows[|rows| - 1].rowid
  }

  lemma SnapshotReaches(chat: map<int, Row>, from: int, rows: seq<Row>)
    requires IsSnapshot(chat, from, rows)
    ensures CaughtUp(chat, from, Reached(rows, from))
  {
  }

  /** What the worker is told, with what it asked. */
  datatype Answer =
    | Ranged(rows: Option<seq<Row>>)
    | Fetched(rowid: int, readable: bool)
    | Offered(event: Event, closed: bool)
    | Replied(reply: Option<bool>)
    | Persisted(state: State, saved: bool)
    | Time(now: string)

  /** A step of the worker and the answers it rests on. */
  predicate Rests(w: World, a: Action, given: seq<Answer>) {
    match a
    case BeginRetry => given == []
    case RetryRow(readable, closed, timestamp, now) =>
      w.pc.Retry? && w.pc.todo != [] && RestsRetry(w, w.pc.todo[0].rowid, readable, closed, timestamp, now, given)
    case RetryAck(now) => w.pc.RetryWait? && w.pc.ack.Some? && given == [Replied(w.pc.ack), Time(now)]
    case RetryTimeout(now) => given == [Replied(None), Time(now)]
    case RetrySave(saved) => w.pc.Retry? && given == [Persisted(w.pc.next, saved)]
    case ScanFails => given == [Ranged(None)]
    case BeginScan(rows) => given == [Ranged(Some(rows))]
    case ScanRow(closed, timestamp, now) =>
      w.pc.Scan? && w.pc.rows != [] && RestsScan(w.mem, w.pc.rows[0], closed, timestamp, now, given)
    case ScanAck => w.pc.ScanWait? && w.pc.ack.Some? && given == [Replied(w.pc.ack)]
    case ScanTimeout => given == [Replied(None)]
    case Save(saved) => w.pc.ScanSave? && given == [Persisted(w.pc.next, saved)]
    case EndScan => given == []
    case _ => false
  }

  predicate RestsRetry(w: World, rowid: int, readable: bool, closed: bool, timestamp: string, now: string,
                       given: seq<Answer>) {
    if !readable || rowid !in w.chat then given == [Fetched(rowid, readable), Time(now)] && !closed
    else
      match EventOf(w.chat[rowid], timestamp)
      case Failure(_) => given == [Fetched(rowid, true), Time(now), Time(timestamp)] && !closed
      case Success(event) => given == [Fetched(rowid, true), Time(now), Time(timestamp), Offered(event, closed)]
  }

  predicate RestsScan(st: State, row: Row, closed: bool, timestamp: string, now: string, given: seq<Answer>) {
    if row.rowid <= st.lastSeen || row.isFromMe != 0 then given == []
    else
      match EventOf(row, timestamp)
      case Failure(_) => given == [Time(timestamp), Time(now)] && !closed
      case Success(event) => given == [Time(timestamp), Offered(event, closed)]
  }

  /** The state that covers an incomplete row: with a fresh entry for it, unless it has one. */
  function Covering(st: State, row: Row, reason: string, now: string): State {
    if HasPending(st.pending, row.guid) then st.(lastSeen := row.rowid)
    else st.(lastSeen := row.rowid,
             pending := st.pending + [PendingInbound(row.rowid, row.guid, now, 0, Some(reason), None)])
  }

  /** Every entry of the new list was tried once more, and the others are journaled. */
  ghost predicate OncePassed(journal: seq<Event>, before: seq<PendingInbound>, after: seq<PendingInbound>) {
    (forall q :: q in after ==> exists p :: p in before && OnceMore(p, q))
    && forall k :: 0 <= k < |before| ==> Kept(journal, before[k], after)
  }

  /** How far one row got. */
  datatype HandleOutcome = Done | Incomplete(reason: string) | NotJournaled

  class ReceiveWorker {
    var state: State
    var active: Tracked
    var observed: seq<(string, Status)> // the statuses sent to the correlator
    ghost var trace: seq<World>
    ghost var acts: seq<Action>
    ghost var answers: seq<Answer>      // history: written only by the methods that ask
    ghost var scans: nat                // history: written by `ReadRows` alone
    ghost var polls: seq<Option<seq<StatusRow>>> // history: written by `ReadStatuses` alone
    ghost var used: seq<Answer>         // the answers the steps logged so far rest on

    ghost predicate Agrees()
      reads `state, `active, `trace, `acts
    {
      trace != [] && IsRun(trace, acts) && Now().mem == state && Bounded(active)
    }

    ghost predicate Valid()
      reads `state, `active, `trace, `acts, `answers, `used
    {
      Agrees() && answers == used
    }

    ghost function Now(): World
      reads `trace
      requires trace != []
    {
      trace[|trace| - 1]
    }

    /** The run so far has only been extended. */
    twostate predicate Extends()
      reads `trace, `acts, `answers
    {
      old(trace) <= trace && old(acts) <= acts && |old(trace)| <= |trace| && old(answers) <= answers
    }

    /** The start of the worker: the saved state as loaded, initialised from the tail of
        chat.db when there is none, and the guids of the sends still to be confirmed. */
    constructor (loaded: State, read: Option<int>, saved: bool, guids: set<string>,
                 ghost trace: seq<World>, ghost acts: seq<Action>)
      requires IsRun(trace, acts) && trace[|trace| - 1].pc.Down? && loaded == Saved(trace[|trace| - 1])
      requires read.Some? ==> IsMaxRowid(trace[|trace| - 1].chat, read.value)
      ensures Valid() && Now().pc == Idle && active == map g | g in guids :: 0
      ensures this.trace == trace + [Apply(trace[|trace| - 1], Start(read, saved))]
      ensures if loaded.lastSeen != 0 then state == loaded
              else state.pending == loaded.pending && state.lastSeen == if read.Some? then read.value else 0
    {
      var first := if read.Some? then read.value else 0;
      state := if loaded.lastSeen == 0 then loaded.(lastSeen := first, base := first) else loaded;
      active := map g | g in guids :: 0;
      observed, answers, used, scans, polls := [], [], [], 0, [];
      this.trace := trace + [Apply(trace[|trace| - 1], Start(read, saved))];
      this.acts := acts + [Start(read, saved)];
    }

    /** One step of the worker joins the run, with the answers it rests on. */
    ghost method Log(a: Action, given: seq<Answer>)
      requires IsRun(trace, acts) && Enabled(Now(), a) && Rests(Now(), a, given) && answers == used + given
      modifies `trace, `acts, `used
      ensures trace != [] && IsRun(trace, acts) && Extends() && Now() == Apply(old(Now()), a) && used == answers
      ensures |trace| == |old(trace)| + 1 && acts == old(acts) + [a]
    {
      var next := Apply(Now(), a);
      RunExtends(trace, acts, a, next);
      trace, acts, used := trace + [next], acts + [a], answers;
    }

    /** Any number of steps of the other actors. Callers learn only this contract. */
    method Others()
      requires IsRun(trace, acts)
      modifies `trace, `acts
      ensures IsRun(trace, acts) && Extends() && ForeignFrom(acts, |old(acts)|)
    {
    }

    /** The worker stands still while the others take steps. */
    method Interfere()
      requires Agrees()
      modifies `trace, `acts
      ensures Agrees() && Extends() && Undisturbed(old(Now()), Now())
    {
      ghost var i := |trace| - 1;
      ghost var before := Now();
      Others();
      ForeignRun(trace, acts, i, |trace| - 1);
      assert trace[i] == before;
    }

    /** The answer of the journal task within the deadline, if any. */
    method AwaitReply() returns (reply: Option<bool>)
      requires IsRun(trace, acts) && Waiting(Now().pc) && Now().pc.ack.None?
      modifies `trace, `acts, `answers
      ensures IsRun(trace, acts) && Extends() && ForeignFrom(acts, |old(acts)|)
      ensures Waiting(Now().pc) && reply == Now().pc.ack && answers == old(answers) + [Replied(reply)]
    {
      reply := None;
      answers := answers + [Replied(reply)];
    }

    /** The range query; chat.db may be unreadable. */
    method ReadRows() returns (rows: Option<seq<Row>>)
      requires Agrees()
      modifies `answers, `scans
      ensures answers == old(answers) + [Ranged(rows)] && scans == old(scans) + 1
      ensures rows.Some? ==> IsSnapshot(Now().chat, state.lastSeen, rows.value)
    {
      rows := None;
      answers, scans := answers + [Ranged(rows)], scans + 1;
    }

    /** The query for one row; chat.db may be unreadable. */
    method ReadRow(rowid: int) returns (readable: bool, row: Option<Row>)
      requires Agrees()
      modifies `answers
      ensures answers == old(answers) + [Fetched(rowid, readable)]
      ensures readable ==> row == if rowid in Now().chat then Some(Now().chat[rowid]) else None
    {
      readable, row := false, None;
      answers := answers + [Fetched(rowid, readable)];
    }

    /** The active query; chat.db may be unreadable. */
    method ReadStatuses() returns (rows: Option<seq<StatusRow>>)
      modifies `polls
      ensures polls == old(polls) + [rows] && (rows.Some? ==> Recheck.Answer(active, rows.value))
    {
      rows := None;
      polls := polls + [rows];
    }

    /** `now_iso`. */
    method Clock() returns (now: string)
      modifies `answers
      ensures answers == old(answers) + [Time(now)]
    {
      now := *;
      answers := answers + [Time(now)];
    }

    /** Whether the state file could be replaced. */
    method Persist(next: State) returns (saved: bool)
      modifies `answers
      ensures answers == old(answers) + [Persisted(next, saved)]
    {
      saved := *;
      answers := answers + [Persisted(next, saved)];
    }

    /** Hands an event to the journal task, unless that is gone. */
    method Offer(event: Event) returns (closed: bool)
      modifies `answers
      ensures answers == old(answers) + [Offered(event, closed)]
    {
      closed := *;
      answers := answers + [Offered(event, closed)];
    }

    /** `inbound_event`, which asks the clock when the row has no date. */
    method BuildEvent(row: Row) returns (event: Result<Event, string>, ghost timestamp: string)
      modifies `answers
      ensures event == EventOf(row, timestamp) && answers == old(answers) + [Time(timestamp)]
    {
      var now := Clock();
      timestamp := now;
      event := EventOf(row, now);
    }

    /** The reply to the request just queued, with the wait in the run. */
    method Reply() returns (ok: Option<bool>)
      requires Valid() && Waiting(Now().pc) && Now().pc.ack.None?
      modifies `trace, `acts, `answers
      ensures Agrees() && Extends() && Undisturbed(old(Now()), Now()) && Waiting(Now().pc) && ok == Now().pc.ack
      ensures answers == old(answers) + [Replied(ok)]
    {
      ghost var i := |trace| - 1;
      ghost var before := Now();
      ok := AwaitReply();
      ForeignRun(trace, acts, i, |trace| - 1);
      assert trace[i] == before;
    }

    /** `emit_blocking` for a row of the scan: the request. */
    method RequestScanned(row: Row, event: Event, ghost timestamp: string, ghost rows: seq<Row>, ghost upto: int)
      returns (closed: bool)
      requires Agrees() && answers == used + [Time(timestamp)]
      requires Now().pc == Scan([row] + rows, upto) && row.rowid > state.lastSeen && row.isFromMe == 0
      requires EventOf(row, timestamp) == Success(event)
      modifies `trace, `acts, `answers, `used
      ensures Valid() && Extends() && Now().troubles == old(Now().troubles) + (if closed then 1 else 0)
      ensures Now().pc == if closed then Idle else ScanWait(row, None, rows, upto)
      ensures answers == old(answers) + [Offered(event, closed)]
    {
      closed := Offer(event);
      ScanRowSends(Now(), row, rows, upto, event, timestamp, closed);
      Log(ScanRow(closed, timestamp, timestamp), [Time(timestamp), Offered(event, closed)]);
    }

    /** `emit_blocking` for a row of the scan: the answer. */
    method AnswerScanned(ghost row: Row, ghost rows: seq<Row>, ghost upto: int) returns (ok: bool)
      requires Valid() && Now().pc == ScanWait(row, None, rows, upto)
      modifies `trace, `acts, `answers, `used
      ensures Valid() && Extends() && Now().troubles >= old(Now().troubles)
      ensures exists reply :: answers == old(answers) + [Replied(reply)] && (ok <==> reply == Some(true))
      ensures ok ==> Now().pc == ScanSave(state.(lastSeen := row.rowid), rows, upto)
      ensures !ok ==> Now().pc == Idle && Now().troubles > old(Now().troubles)
    {
      var reply := Reply();
      ok := reply == Some(true);
      if reply.None? {
        Log(ScanTimeout, [Replied(None)]);
      } else {
        Log(ScanAck, [Replied(reply)]);
      }
    }

    /** The statuses go to the correlator. */
    method Report(guid: string, status: Status)
      modifies `observed
      ensures observed == old(observed) + [(guid, status)]
    {
      observed := observed + [(guid, status)];
    }

    /** `handle_row`: journals an inbound row; reports an outbound one, and tracks it unless it is
        read. */
    method HandleRow(row: Row, ghost rows: seq<Row>, ghost upto: int)
      returns (outcome: HandleOutcome, ghost timestamp: string)
      requires Valid() && Now().pc == Scan([row] + rows, upto) && row.rowid > state.lastSeen
      modifies `active, `observed, `trace, `acts, `answers, `used
      ensures Agrees() && Extends() && Now().troubles >= old(Now().troubles)
      ensures active == if row.isFromMe != 0 && StatusOf(row) != Read then Track(old(active), row.guid) else old(active)
      ensures observed == old(observed) + if row.isFromMe != 0 then [(row.guid, StatusOf(row))] else []
      ensures match outcome
              case NotJournaled => Valid() && row.isFromMe == 0 && Now().pc == Idle && Now().troubles > old(Now().troubles)
              case Incomplete(reason) =>
                row.isFromMe == 0 && Now() == old(Now()) && EventOf(row, timestamp) == Failure(reason)
                && answers == used + [Time(timestamp)]
              case Done => Valid() && if row.isFromMe != 0 then Now() == old(Now())
                                      else Now().pc == ScanSave(state.(lastSeen := row.rowid), rows, upto)
    {
      hide IsRun, EventOf;
      if row.isFromMe == 0 {
        var event;
        event, timestamp := BuildEvent(row);
        if event.Failure? {
          return Incomplete(event.error), timestamp;
        }
        var closed := RequestScanned(row, event.value, timestamp, rows, upto);
        if closed {
          return NotJournaled, timestamp;
        }
        var ok := AnswerScanned(row, rows, upto);
        return if ok then Done else NotJournaled, timestamp;
      }
      timestamp := "";
      Report(row.guid, StatusOf(row));
      if StatusOf(row) != Read {
        active := Track(active, row.guid);
      }
      return Done, timestamp;
    }

    /** An incomplete row becomes pending, once, with no attempt counted yet. */
    method CaptureRow(row: Row, reason: string, ghost timestamp: string, ghost rows: seq<Row>, ghost upto: int)
      returns (next: State, ghost now: string)
      requires Agrees() && answers == used + [Time(timestamp)]
      requires Now().pc == Scan([row] + rows, upto) && row.rowid > state.lastSeen && row.isFromMe == 0
      requires EventOf(row, timestamp) == Failure(reason)
      modifies `trace, `acts, `answers, `used
      ensures Valid() && Extends() && Now().troubles == old(Now().troubles)
      ensures Now().pc == ScanSave(next, rows, upto) && next == Covering(state, row, reason, now)
      ensures answers == old(answers) + [Time(now)]
    {
      var clock := Clock();
      now := clock;
      ScanRowCaptures(Now(), row, rows, upto, reason, timestamp, clock);
      Log(ScanRow(false, timestamp, clock), [Time(timestamp), Time(clock)]);
      next := Captured(state, row, reason, clock).(lastSeen := row.rowid);
    }

    /** One row of the scan, up to the state that covers it. */
    method ScanOne(row: Row, ghost rows: seq<Row>, ghost upto: int) returns (next: Option<State>)
      requires Valid() && Now().pc == Scan([row] + rows, upto) && row.rowid > state.lastSeen
      modifies `active, `observed, `trace, `acts, `answers, `used
      ensures Valid() && Extends() && Now().troubles >= old(Now().troubles)
      ensures next.Some? ==> Now().pc == ScanSave(next.value, rows, upto) && next.value.lastSeen == row.rowid
      ensures next.None? ==> Now().pc == Idle && Now().troubles > old(Now().troubles)
    {
      hide IsRun, EventOf;
      Interfere();
      var outcome, timestamp := HandleRow(row, rows, upto);
      match outcome
      case NotJournaled =>
        return None;
      case Incomplete(reason) =>
        var captured, now := CaptureRow(row, reason, timestamp, rows, upto);
        return Some(captured);
      case Done =>
        if row.isFromMe != 0 {
          ScanRowPasses(Now(), row, rows, upto);
          Log(ScanRow(false, "", ""), []);
        }
        return Some(state.(lastSeen := row.rowid));
    }

    /** Replaces the state file, and the state exactly when that is reported as done. */
    method Advance(next: State, ghost rows: seq<Row>, ghost upto: int) returns (saved: bool)
      requires Valid() && Now().pc == ScanSave(next, rows, upto)
      modifies `state, `trace, `acts, `answers, `used
      ensures Valid() && Extends() && Now().troubles >= old(Now().troubles)
      ensures answers == old(answers) + [Persisted(next, saved)]
      ensures saved ==> Now().pc == Scan(rows, upto) && state == next
      ensures !saved ==> Now().pc == Idle && state == old(state) && Now().troubles > old(Now().troubles)
    {
      Interfere();
      saved := Persist(next);
      Log(Save(saved), [Persisted(next, saved)]);
      if saved {
        state := next;
      }
    }

    /** One row of the scan, and the save that moves the watermark over it. */
    method ScanNext(row: Row, ghost rows: seq<Row>, ghost upto: int) returns (ok: bool)
      requires Valid() && Now().pc == Scan([row] + rows, upto) && row.rowid > state.lastSeen
      modifies `state, `active, `observed, `trace, `acts, `answers, `used
      ensures Valid() && Extends() && Now().troubles >= old(Now().troubles)
      ensures ok ==> Now().pc == Scan(rows, upto) && state.lastSeen == row.rowid
      ensures !ok ==> Now().pc == Idle && Now().troubles > old(Now().troubles)
    {
      var next := ScanOne(row, rows, upto);
      if next.None? {
        return false;
      }
      ok := Advance(next.value, rows, upto);
    }

    /** The loop of `scan` over the rows read, all above the watermark and ascending. */
    method ScanAll(rows: seq<Row>, ghost upto: int)
      requires Valid() && Now().pc == Scan(rows, upto)
      requires Ascending(rows) && forall k :: 0 <= k < |rows| ==> rows[k].rowid > state.lastSeen
      modifies `state, `active, `observed, `trace, `acts, `answers, `used
      ensures Valid() && Extends() && Now().pc == Idle && Now().troubles >= old(Now().troubles)
      ensures Now().troubles == old(Now().troubles) ==> state.lastSeen == Reached(rows, old(state.lastSeen))
    {
      for i := 0 to |rows|
        invariant Valid() && Extends() && Now().pc == Scan(rows[i..], upto) && Now().troubles >= old(Now().troubles)
        invariant state.lastSeen == Reached(rows[..i], old(state.lastSeen))
      {
        assert rows[i..] == [rows[i]] + rows[i + 1..];
        var ok := ScanNext(rows[i], rows[i + 1..], upto);
        if !ok {
          return;
        }
      }
      assert rows[..|rows|] == rows;
      Log(EndScan, []);
    }

    /** The range query, at a point of the run. */
    method BeginScanning() returns (rows: Option<seq<Row>>, ghost at: nat)
      requires Valid() && Now().pc == Idle
      modifies `trace, `acts, `answers, `scans, `used
      ensures Valid() && Extends() && |old(trace)| <= at + 1 && at < |trace|
      ensures answers == old(answers) + [Ranged(rows)] && scans == old(scans) + 1
      ensures rows.None? ==> Now().pc == Idle && Now().troubles > old(Now().troubles)
      ensures rows.Some? ==> Now().pc.Scan? && Now().pc.rows == rows.value && Now().troubles >= old(Now().troubles)
                             && IsSnapshot(trace[at].chat, state.lastSeen, rows.value)
    {
      Interfere();
      at := |trace| - 1;
      rows := ReadRows();
      Log(if rows.Some? then BeginScan(rows.value) else ScanFails, [Ranged(rows)]);
    }

    /** `scan`: unless a query, the journal or a save gives trouble, the watermark ends at the
        highest ROWID read, and so nothing chat.db held when it was read is above it. */
    method ScanRows() returns (ghost at: nat)
      requires Valid() && Now().pc == Idle
      modifies `state, `active, `observed, `trace, `acts, `answers, `scans, `used
      ensures Valid() && Extends() && Now().pc == Idle && Now().troubles >= old(Now().troubles)
      ensures |old(trace)| <= at + 1 && at < |trace| && scans == old(scans) + 1
      ensures Now().troubles == old(Now().troubles) ==> CaughtUp(trace[at].chat, old(state.lastSeen), state.lastSeen)
    {
      var read;
      read, at := BeginScanning();
      if read.None? {
        return;
      }
      SnapshotReaches(trace[at].chat, state.lastSeen, read.value);
      ghost var here := trace;
      ScanAll(read.value, Now().pc.upto);
      assert trace[at] == here[at];
    }

    /** The request of `emit_blocking` for a pending entry, or why there is none. */
    method RequestPending(p: PendingInbound, ghost todo: seq<PendingInbound>, next: State)
      returns (reason: Option<string>, now: string)
      requires Valid() && Now().pc == Retry([p] + todo, next)
      modifies `trace, `acts, `answers, `used
      ensures Valid() && Extends()
      ensures Now().pc == match reason
                          case None => RetryWait(p, None, todo, next)
                          case Some(why) => Retry(todo, AfterFailure(next, p, why, now))
    {
      hide IsRun, EventOf;
      var readable, found := ReadRow(p.rowid);
      now := Clock();
      if !readable {
        RetryRowFails(Now(), p, todo, next, false, false, "", now);
        Log(RetryRow(false, false, "", now), [Fetched(p.rowid, false), Time(now)]);
        return Some("chat.db query failed"), now;
      }
      if found.None? {
        RetryRowFails(Now(), p, todo, next, true, false, "", now);
        Log(RetryRow(true, false, "", now), [Fetched(p.rowid, true), Time(now)]);
        return Some("message row is absent from chat.db"), now;
      }
      reason := RequestFound(p, found.value, todo, next, now);
    }

    /** The same for a row that was found. */
    method RequestFound(p: PendingInbound, row: Row, ghost todo: seq<PendingInbound>, ghost next: State, ghost now: string)
      returns (reason: Option<string>)
      requires Agrees() && answers == used + [Fetched(p.rowid, true), Time(now)]
      requires Now().pc == Retry([p] + todo, next) && p.rowid in Now().chat && Now().chat[p.rowid] == row
      modifies `trace, `acts, `answers, `used
      ensures Valid() && Extends()
      ensures Now().pc == match reason
                          case None => RetryWait(p, None, todo, next)
                          case Some(why) => Retry(todo, AfterFailure(next, p, why, now))
    {
      hide IsRun, EventOf;
      var event, timestamp := BuildEvent(row);
      ghost var asked := [Fetched(p.rowid, true), Time(now), Time(timestamp)];
      if event.Failure? {
        RetryRowFails(Now(), p, todo, next, true, false, timestamp, now);
        Log(RetryRow(true, false, timestamp, now), asked);
        return Some(event.error);
      }
      var closed := Offer(event.value);
      RetryRowFails(Now(), p, todo, next, true, closed, timestamp, now);
      Log(RetryRow(true, closed, timestamp, now), asked + [Offered(event.value, closed)]);
      return if closed then Some("journal failed") else None;
    }

    /** The answer of `emit_blocking` for a pending entry. */
    method AnswerPending(p: PendingInbound, ghost todo: seq<PendingInbound>, next: State) returns (after: State)
      requires Valid() && Now().pc == RetryWait(p, None, todo, next)
      modifies `trace, `acts, `answers, `used
      ensures Valid() && Extends() && Now().pc == Retry(todo, after)
    {
      var reply := Reply();
      var now := Clock();
      if reply.None? {
        Log(RetryTimeout(now), [Replied(None), Time(now)]);
      } else {
        Log(RetryAck(now), [Replied(reply), Time(now)]);
      }
      return if reply == Some(true) then next.(pending := Without(next.pending, p.guid))
             else AfterFailure(next, p, "journal failed", now);
    }

    /** One pending entry of the pass: journaled and removed, or bumped. */
    method RetryOne(p: PendingInbound, ghost todo: seq<PendingInbound>, next: State) returns (after: State)
      requires Valid() && Now().pc == Retry([p] + todo, next)
      modifies `trace, `acts, `answers, `used
      ensures Valid() && Extends() && Now().pc == Retry(todo, after)
    {
      Interfere();
      var reason, now := RequestPending(p, todo, next);
      if reason.Some? {
        return AfterFailure(next, p, reason.value, now);
      }
      after := AnswerPending(p, todo, next);
    }

    /** The pass over the entries, none of them saved yet. */
    method RetryAll() returns (next: State)
      requires Valid() && Now().pc == Idle && state.pending != []
      modifies `trace, `acts, `answers, `used
      ensures Valid() && Extends() && Now().pc == Retry([], next)
    {
      next := state;
      var todo := state.pending;
      Log(BeginRetry, []);
      for i := 0 to |todo|
        invariant Valid() && Extends() && Now().pc == Retry(todo[i..], next)
      {
        assert todo[i..] == [todo[i]] + todo[i + 1..];
        next := RetryOne(todo[i], todo[i + 1..], next);
      }
    }

    /** The save at the end of the pass: the state changes exactly when it is reported as done. */
    method SavePass(next: State) returns (saved: bool)
      requires Valid() && Now().pc == Retry([], next)
      modifies `state, `trace, `acts, `answers, `used
      ensures Valid() && Extends() && Now().pc == Idle && Now().journal == old(Now()).journal
      ensures acts == old(acts) + [RetrySave(saved)] && answers == old(answers) + [Persisted(next, saved)]
      ensures if saved then state == next && Now().disk == Some(next) else state == old(state)
    {
      saved := Persist(next);
      Log(RetrySave(saved), [Persisted(next, saved)]);
      if saved {
        state := next;
      }
    }

    /** `retry_pending`: one pass over the entries pending when it starts, saved at the end. Once it
        is saved every entry that is left was tried exactly once more, and the others are
        journaled. */
    method RetryPending() returns (ghost saved: bool)
      requires Valid() && Now().pc == Idle
      modifies `state, `trace, `acts, `answers, `used
      ensures Valid() && Extends() && Now().pc == Idle
      ensures if old(state.pending) == [] then acts == old(acts) && state == old(state)
              else |old(acts)| < |acts| && acts[|acts| - 1] == RetrySave(saved)
                   && answers != [] && answers[|answers| - 1].Persisted? && answers[|answers| - 1].saved == saved
                   && if saved then Now().disk == Some(state) && OncePassed(Now().journal, old(state.pending), state.pending)
                      else state == old(state)
    {
      saved := false;
      if state.pending == [] {
        return;
      }
      var next := RetryAll();
      PassLeaves(trace, acts, next);
      saved := SavePass(next);
    }

    /** `recheck_active`: one poll when anything is tracked; the statuses go to the correlator. */
    method RecheckActive() returns (ghost rows: seq<StatusRow>)
      requires Valid()
      modifies `active, `observed, `polls
      ensures Valid() && Recheck.Answer(old(active), rows) && active == PollAll(old(active), rows)
      ensures if old(active) == map[] then polls == old(polls) && rows == []
              else exists read :: polls == old(polls) + [read] && rows == if read.Some? then read.value else []
      ensures old(observed) <= observed && |observed| == |old(observed)| + |rows|
      ensures forall k :: 0 <= k < |rows| ==> observed[|old(observed)| + k] == (rows[k].guid, Polled(rows[k]))
    {
      rows := [];
      if active == map[] {
        return;
      }
      var read := ReadStatuses();
      if read.None? {
        assert polls == old(polls) + [read];
        return;
      }
      rows := read.value;
      CountsStayBelowCap(active, "", read.value);
      var statuses;
      active, statuses := PollRows(active, read.value);
      observed := observed + statuses;
      assert polls == old(polls) + [read];
    }

    /** One wake-up of `worker`: the pending first, then a scan, then a poll if anything is tracked. */
    method Turn()
      requires Valid() && Now().pc == Idle
      modifies `state, `active, `observed, `trace, `acts, `answers, `scans, `polls, `used
      ensures Valid() && Extends() && Now().pc == Idle && scans == old(scans) + 1
      ensures old(state.pending) != [] ==> exists k :: |old(acts)| <= k < |acts| && acts[k].RetrySave?
      ensures polls == old(polls) ==> active == map[]
    {
      var saved := RetryPending();
      ghost var passed := acts;
      var at := ScanRows();
      assert old(state.pending) != [] ==> acts[|passed| - 1].RetrySave?;
      ghost var rows := RecheckActive();
    }

    /** `worker`, for any number of turns, with a scan in each. */
    method Run(turns: nat)
      requires Valid() && Now().pc == Idle
      modifies `state, `active, `observed, `trace, `acts, `answers, `scans, `polls, `used
      ensures Valid() && Extends() && Now().pc == Idle && scans == old(scans) + turns
    {
      for turn := 0 to turns
        invariant Valid() && Extends() && Now().pc == Idle && scans == old(scans) + turn
      {
        Interfere();
        Turn();
      }
    }
  }

  lemma RunExtends(ws: seq<World>, acts: seq<Action>, a: Action, next: World)
    requires IsRun(ws, acts) && Enabled(ws[|acts|], a) && next == Apply(ws[|acts|], a)
    ensures IsRun(ws + [next], acts + [a])
  {
    var ws', acts' := ws + [next], acts + [a];
    forall i | 0 <= i < |acts'| ensures Enabled(ws'[i], acts'[i]) && ws'[i + 1] == Apply(ws'[i], acts'[i]) {
      if i < |acts| { assert ws'[i] == ws[i] && ws'[i + 1] == ws[i + 1] && acts'[i] == acts[i]; }
    }
  }

  /** What a finished pass leaves, as the counting laws say. */
  lemma PassLeaves(ws: seq<World>, acts: seq<Action>, next: State)
    requires IsRun(ws, acts) && ws[|acts|].pc == Retry([], next)
    ensures OncePassed(ws[|acts|].journal, ws[|acts|].mem.pending, next.pending)
  {
    var w := ws[|acts|];
    RunPasses(ws, acts, |acts|);
    forall q | q in next.pending ensures exists p :: p in w.mem.pending && OnceMore(p, q) {
      assert Comes(w.mem.pending, q, false);
    }
    assert NextOk(w, next);
  }

  /** A pending entry whose row cannot be read, built or queued is bumped with the reason;
      otherwise its event is queued. */
  lemma RetryRowFails(w: World, p: PendingInbound, todo: seq<PendingInbound>, next: State,
                      readable: bool, closed: bool, timestamp: string, now: string)
    requires w.pc == Retry([p] + todo, next)
    ensures var w' := Apply(w, RetryRow(readable, closed, timestamp, now));
            && w'.mem == w.mem
            && w'.pc == match RetryOutcome(w, p, readable, closed, timestamp)
                        case Failure(why) => Retry(todo, AfterFailure(next, p, why, now))
                        case Success(_) => RetryWait(p, None, todo, next)
  {
  }

  lemma ScanRowSends(w: World, row: Row, rows: seq<Row>, upto: int, event: Event, timestamp: string, closed: bool)
    requires w.pc == Scan([row] + rows, upto) && row.rowid > w.mem.lastSeen && row.isFromMe == 0
    requires EventOf(row, timestamp) == Success(event)
    ensures Apply(w, ScanRow(closed, timestamp, timestamp))
         == if closed then w.(pc := Idle, troubles := w.troubles + 1)
            else w.(sink := w.sink + [event], pc := ScanWait(row, None, rows, upto))
  {
  }

  lemma ScanRowCaptures(w: World, row: Row, rows: seq<Row>, upto: int, reason: string, timestamp: string, now: string)
    requires w.pc == Scan([row] + rows, upto) && row.rowid > w.mem.lastSeen && row.isFromMe == 0
    requires EventOf(row, timestamp) == Failure(reason)
    ensures Apply(w, ScanRow(false, timestamp, now))
         == w.(pc := ScanSave(Captured(w.mem, row, reason, now).(lastSeen := row.rowid), rows, upto))
  {
  }

  lemma ScanRowPasses(w: World, row: Row, rows: seq<Row>, upto: int)
    requires w.pc == Scan([row] + rows, upto) && row.rowid > w.mem.lastSeen && row.isFromMe != 0
    ensures Apply(w, ScanRow(false, "", "")) == w.(pc := ScanSave(w.mem.(lastSeen := row.rowid), rows, upto))
  {
  }
}
