/** How often one inbound message can be journaled. */
module Duplication {
  import opened Wrappers
  import opened Model
  import opened Journal
  import opened InboundEvent
  import opened Receive
  import opened InboundCapture

  /** How many events carry the guid. */
  function Tally(events: seq<Event>, guid: string): nat {
    if events == [] then 0 else (if events[0].messageId == guid then 1 else 0) + Tally(events[1..], guid)
  }

  lemma {:induction false} TallyAppend(events: seq<Event>, event: Event, guid: string)
    ensures Tally(events + [event], guid) == Tally(events, guid) + if event.messageId == guid then 1 else 0
  {
    if events == [] {
      assert (events + [event])[1..] == [];
    } else {
      assert (events + [event])[1..] == events[1..] + [event];
      TallyAppend(events[1..], event, guid);
    }
  }

  /** The state `st` owes nothing more for the guid: its row is at or below the watermark
      and not pending. */
  predicate Settled(ids: map<int, Identity>, st: State, guid: string) {
    !HasPending(st.pending, guid) && exists r :: r in ids && ids[r].guid == guid && r <= st.lastSeen
  }

  function Owed(ids: map<int, Identity>, st: State, guid: string): nat {
    if Settled(ids, st, guid) then 0 else 1
  }

  /** How many more entries for the guid the worker may yet cause without a fault: none once
      it was told of one, however often it asked before. */
  function Budget(w: World, guid: string): nat {
    match w.pc
    case Down => 1
    case Idle => Owed(w.ids, w.mem, guid)
    case Retry(_, next) => Owed(w.ids, next, guid)
    case RetryWait(p, ack, _, next) => if p.guid == guid && ack == Some(true) then 0 else Owed(w.ids, next, guid)
    case Scan(_, _) => Owed(w.ids, w.mem, guid)
    case ScanWait(row, ack, _, _) => if row.guid == guid && ack == Some(true) then 0 else Owed(w.ids, w.mem, guid)
    case ScanSave(next, _, _) => Owed(w.ids, next, guid)
  }

  predicate Within(w: World, guid: string) {
    Tally(w.journal, guid) + Budget(w, guid) <= 1 + w.faults
  }

  /** Entries still to be retried are still pending. */
  ghost predicate TodoPending(w: World) {
    match w.pc
    case Retry(todo, next) =>
      (forall k :: 0 <= k < |todo| ==> HasPending(next.pending, todo[k].guid))
      && DistinctPending(todo)
    case RetryWait(p, _, todo, next) =>
      HasPending(next.pending, p.guid)
      && (forall k :: 0 <= k < |todo| ==> HasPending(next.pending, todo[k].guid) && todo[k].guid != p.guid)
      && DistinctPending(todo)
    case _ => true
  }

  lemma WithoutPending(pending: seq<PendingInbound>, gone: string, guid: string)
    ensures HasPending(Without(pending, gone), guid) <==> HasPending(pending, guid) && guid != gone
  {
  }

  lemma BumpPending(next: State, p: PendingInbound, reason: string, now: string)
    ensures forall guid :: HasPending(AfterFailure(next, p, reason, now).pending, guid) <==> HasPending(next.pending, guid)
  {
  }

  lemma RetryRowTodo(w: World, readable: bool, closed: bool, timestamp: string, now: string)
    requires TodoPending(w) && w.pc.Retry? && w.pc.todo != []
    ensures TodoPending(ApplyRetryRow(w, readable, closed, timestamp, now))
  {
  }

  lemma RetryAckTodo(w: World, now: string)
    requires TodoPending(w) && Enabled(w, RetryAck(now))
    ensures TodoPending(Apply(w, RetryAck(now)))
  {
  }

  lemma CommitTodo(w: World, write: Write)
    requires TodoPending(w) && w.sink != []
    ensures TodoPending(ApplyCommit(w, write))
  {
  }

  lemma TimeoutTodo(w: World, now: string)
    requires TodoPending(w) && Enabled(w, RetryTimeout(now))
    ensures TodoPending(Apply(w, RetryTimeout(now)))
  {
    BumpPending(w.pc.next, w.pc.pending, "journal failed", now);
  }

  lemma QuietTodo(w: World, a: Action)
    requires Inv(w) && TodoPending(w) && Enabled(w, a)
    requires !ChangesChat(a) && !a.Commit? && !a.RetryRow? && !a.RetryAck? && !a.RetryTimeout? && !a.ScanRow?
    ensures TodoPending(Apply(w, a))
  {
  }

  lemma StepTodo(w: World, a: Action)
    requires Inv(w) && TodoPending(w) && Enabled(w, a)
    ensures TodoPending(Apply(w, a))
  {
    if ChangesChat(a) {
      ChatIsForeign(w, a);
    } else if a.Commit? {
      CommitTodo(w, a.write);
    } else if a.RetryRow? {
      RetryRowTodo(w, a.readable, a.closed, a.timestamp, a.now);
    } else if a.RetryAck? {
      RetryAckTodo(w, a.now);
    } else if a.RetryTimeout? {
      TimeoutTodo(w, a.now);
    } else if !a.ScanRow? {
      QuietTodo(w, a);
    }
  }

  /** The worker asks only for what it owes. */
  lemma OwedPending(w: World, st: State, guid: string)
    requires HasPending(st.pending, guid)
    ensures Owed(w.ids, st, guid) == 1
  {
  }

  lemma OwedAbove(w: World, st: State, row: Row)
    requires IdsOk(w) && RowOk(w, row) && row.rowid > st.lastSeen
    ensures Owed(w.ids, st, row.guid) == 1
  {
  }

  lemma OwedSame(ids: map<int, Identity>, st: State, st': State, guid: string)
    requires st.lastSeen == st'.lastSeen && (HasPending(st.pending, guid) <==> HasPending(st'.pending, guid))
    ensures Owed(ids, st, guid) == Owed(ids, st', guid)
  {
  }

  // The other actors

  lemma ChatBudget(w: World, a: Action, guid: string)
    requires Inv(w) && Within(w, guid) && Enabled(w, a) && ChangesChat(a)
    ensures Within(Apply(w, a), guid)
  {
    ChatIsForeign(w, a);
    if a.Insert? {
      var w' := Apply(w, a);
      forall st: State | st.lastSeen <= w.top ensures Owed(w'.ids, st, guid) == Owed(w.ids, st, guid) {
        if Settled(w.ids, st, guid) {
          var r :| r in w.ids && w.ids[r].guid == guid && r <= st.lastSeen;
          assert r in w'.ids && w'.ids[r].guid == guid;
        }
      }
    } else {
      assert Apply(w, a).ids == w.ids;
    }
  }

  /** The guid whose answer the worker awaits. */
  function AwaitedGuid(pc: Pc): Option<string> {
    match pc
    case RetryWait(p, None, _, _) => Some(p.guid)
    case ScanWait(row, None, _, _) => Some(row.guid)
    case _ => None
  }

  /** What the worker awaits, it owes. */
  lemma AwaitedIsOwed(w: World, guid: string)
    requires Inv(w) && TodoPending(w) && AwaitedGuid(w.pc) == Some(guid)
    ensures Budget(w, guid) == 1 && w.sink != [] && w.sink[|w.sink| - 1].messageId == guid
  {
    if w.pc.RetryWait? {
      OwedPending(w, w.pc.next, guid);
    } else {
      HeadAndTail(w, w.pc.row, w.pc.rows, w.mem.lastSeen, w.pc.upto);
      OwedAbove(w, w.mem, w.pc.row);
    }
  }

  /** Being told settles what was awaited; anything else leaves the budget alone. */
  lemma AnsweredBudget(w: World, ok: bool, guid: string)
    ensures Budget(Answered(w, ok), guid) == if ok && AwaitedGuid(w.pc) == Some(guid) then 0 else Budget(w, guid)
  {
  }

  lemma CommitBudget(w: World, write: Write, w': World, guid: string)
    requires Inv(w) && TodoPending(w) && Within(w, guid) && w.sink != [] && w' == ApplyCommit(w, write)
    ensures Within(w', guid)
  {
    if |w.sink| == 1 && AwaitedGuid(w.pc).Some? {
      AwaitedIsOwed(w, AwaitedGuid(w.pc).value);
    }
    WrittenWithin(w, write, ValidPublicEvent(w.sink[0]), w', guid);
  }

  /** The answer to the oldest request goes to whoever asked for it. */
  predicate AwaitedFits(w: World) {
    |w.sink| == 1 && AwaitedGuid(w.pc).Some? ==>
      AwaitedGuid(w.pc) == Some(w.sink[0].messageId) && Budget(w, w.sink[0].messageId) == 1
  }

  lemma WrittenWithin(w: World, write: Write, valid: bool, w': World, guid: string)
    requires Within(w, guid) && w.sink != [] && w' == Written(w, write, valid) && AwaitedFits(w)
    ensures Within(w', guid)
  {
    var stored, ok := valid && !write.Lost?, valid && write.Acknowledged?;
    var v := Charged(w, if stored && !(ok && AwaitsOldest(w)) then 1 else 0, if write.Acknowledged? then 0 else 1);
    ProcessedWithin(w, v, stored, ok, w', guid);
  }

  lemma ProcessedWithin(w: World, v: World, stored: bool, ok: bool, w': World, guid: string)
    requires Within(w, guid) && w.sink != [] && (ok ==> stored) && AwaitedFits(w)
    requires v == w.(faults := v.faults, troubles := v.troubles) && w' == Processed(v, stored, ok)
    requires v.faults >= w.faults + if stored && !(ok && AwaitsOldest(w)) then 1 else 0
    ensures Within(w', guid)
  {
    TallyAppend(w.journal, w.sink[0], guid);
    BudgetOfPc(w, v, guid);
    BudgetOfPc(w, Stored(v, stored), guid);
    AnsweredBudget(Stored(v, stored), ok, guid);
  }

  lemma BudgetOfPc(w: World, v: World, guid: string)
    requires v.pc == w.pc && v.ids == w.ids && v.mem == w.mem
    ensures Budget(v, guid) == Budget(w, guid)
  {
  }

  lemma DeathBudget(w: World, guid: string)
    requires Within(w, guid)
    ensures Within(Apply(w, EmitterDies), guid)
  {
  }

  // The worker

  lemma RetryRowBudget(w: World, readable: bool, closed: bool, timestamp: string, now: string, guid: string)
    requires Inv(w) && TodoPending(w) && Within(w, guid) && w.pc.Retry? && w.pc.todo != []
    ensures Within(ApplyRetryRow(w, readable, closed, timestamp, now), guid)
  {
    var p, next := w.pc.todo[0], w.pc.next;
    match RetryOutcome(w, p, readable, closed, timestamp)
    case Failure(reason) =>
      BumpPending(next, p, reason, now);
      OwedSame(w.ids, next, AfterFailure(next, p, reason, now), guid);
    case Success(event) =>
  }

  /** Once its request was answered, a retried entry is owed nothing more. */
  lemma RetrySettles(w: World, next: State, guid: string)
    requires StateOk(w, next) && HasPending(next.pending, guid)
    ensures Owed(w.ids, next.(pending := Without(next.pending, guid)), guid) == 0
  {
  }

  /** A step that stores nothing and counts a fault stays within the bound. */
  lemma FaultPays(w: World, w': World, guid: string)
    requires Within(w, guid) && w'.journal == w.journal && w'.faults == w.faults + 1
    ensures Within(w', guid)
  {
  }

  /** The worker was told: the entry is settled. */
  lemma ToldBudget(w: World, w': World, guid: string)
    requires Within(w, guid) && w.pc.RetryWait? && w.pc.ack == Some(true)
    requires StateOk(w, w.pc.next) && HasPending(w.pc.next.pending, w.pc.pending.guid)
    requires w' == w.(pc := Retry(w.pc.todo, w.pc.next.(pending := Without(w.pc.next.pending, w.pc.pending.guid))))
    ensures Within(w', guid)
  {
    var p, next := w.pc.pending, w.pc.next;
    if guid == p.guid {
      RetrySettles(w, next, p.guid);
    } else {
      WithoutPending(next.pending, p.guid, guid);
      OwedSame(w.ids, next, w'.pc.next, guid);
    }
  }

  /** An unanswered or refused request leaves the debt where it was. */
  lemma UntoldBudget(w: World, now: string, w': World, guid: string)
    requires Within(w, guid) && w.pc.RetryWait? && w.pc.ack != Some(true)
    requires w' == w.(pc := Retry(w.pc.todo, AfterFailure(w.pc.next, w.pc.pending, "journal failed", now)),
                      troubles := w'.troubles)
    ensures Within(w', guid)
  {
    BumpPending(w.pc.next, w.pc.pending, "journal failed", now);
    OwedSame(w.ids, w.pc.next, w'.pc.next, guid);
  }

  lemma RetryAnswerBudget(w: World, a: Action, guid: string)
    requires Inv(w) && TodoPending(w) && Within(w, guid) && Enabled(w, a) && (a.RetryAck? || a.RetryTimeout?)
    ensures Within(Apply(w, a), guid)
  {
    if w.pc.ack == Some(true) {
      ToldBudget(w, Apply(w, a), guid);
    } else {
      UntoldBudget(w, a.now, Apply(w, a), guid);
    }
  }

  /** Moving the watermark over a row only lowers what is owed. */
  lemma OwedDrops(w: World, st: State, st': State, guid: string)
    requires st.lastSeen <= st'.lastSeen && (HasPending(st'.pending, guid) ==> HasPending(st.pending, guid))
    ensures Owed(w.ids, st', guid) <= Owed(w.ids, st, guid)
  {
  }

  /** A row above the watermark is not pending, so once the watermark covers it, it is settled. */
  lemma ScanSettles(w: World, row: Row)
    requires IdsOk(w) && StateOk(w, w.mem) && RowOk(w, row) && row.rowid > w.mem.lastSeen
    ensures Owed(w.ids, w.mem.(lastSeen := row.rowid), row.guid) == 0
  {
  }

  lemma CapturedPending(st: State, row: Row, reason: string, now: string, guid: string)
    requires guid != row.guid
    ensures HasPending(Captured(st, row, reason, now).pending, guid) ==> HasPending(st.pending, guid)
  {
  }

  /** A row captured or passed over: nothing new is owed. */
  lemma ScanPassBudget(w: World, row: Row, w': World, guid: string)
    requires Within(w, guid) && w.pc.Scan? && Owed(w.ids, w.mem, row.guid) == 1
    requires w'.pc.ScanSave? && w' == w.(pc := w'.pc) && w'.pc.next.lastSeen >= w.mem.lastSeen
    requires guid != row.guid && HasPending(w'.pc.next.pending, guid) ==> HasPending(w.mem.pending, guid)
    ensures Within(w', guid)
  {
  }

  lemma ScanRowBudget(w: World, closed: bool, timestamp: string, now: string, guid: string)
    requires Inv(w) && Within(w, guid) && w.pc.Scan? && w.pc.rows != []
    ensures Within(ApplyScanRow(w, closed, timestamp, now), guid)
  {
    hide EventOf;
    var w' := ApplyScanRow(w, closed, timestamp, now);
    var row := w.pc.rows[0];
    assert RowOk(w, row);
    OwedAbove(w, w.mem, row);
    if w'.pc.ScanSave? {
      if guid != row.guid && row.isFromMe == 0 {
        CapturedPending(w.mem, row, EventOf(row, timestamp).error, now, guid);
      }
      ScanPassBudget(w, row, w', guid);
    }
  }

  lemma ScanAnswerBudget(w: World, a: Action, guid: string)
    requires Inv(w) && Within(w, guid) && Enabled(w, a) && (a.ScanAck? || a.ScanTimeout?)
    ensures Within(Apply(w, a), guid)
  {
    if w.pc.ack == Some(true) {
      var row := w.pc.row;
      HeadAndTail(w, row, w.pc.rows, w.mem.lastSeen, w.pc.upto);
      ScanSettles(w, row);
      OwedDrops(w, w.mem, w.mem.(lastSeen := row.rowid), guid);
    }
  }

  lemma SaveBudget(w: World, a: Action, guid: string)
    requires Within(w, guid) && Enabled(w, a) && (a.RetrySave? || a.Save?)
    ensures Within(Apply(w, a), guid)
  {
    if !a.saved { FaultPays(w, Apply(w, a), guid); }
  }

  /** Starting, and taking up or ending a pass, asks for nothing. */
  lemma PassBudget(w: World, a: Action, guid: string)
    requires Within(w, guid) && Enabled(w, a)
    requires a.Start? || a.BeginRetry? || a.ScanFails? || a.BeginScan? || a.EndScan?
    ensures Within(Apply(w, a), guid)
  {
  }

  lemma WorkerBudget(w: World, a: Action, guid: string)
    requires Inv(w) && TodoPending(w) && Within(w, guid) && Enabled(w, a)
    requires !ChangesChat(a) && !a.Commit? && !a.EmitterDies? && !a.Crash?
    ensures Within(Apply(w, a), guid)
  {
    if a.RetryRow? {
      RetryRowBudget(w, a.readable, a.closed, a.timestamp, a.now, guid);
    } else if a.RetryAck? || a.RetryTimeout? {
      RetryAnswerBudget(w, a, guid);
    } else if a.ScanRow? {
      ScanRowBudget(w, a.closed, a.timestamp, a.now, guid);
    } else if a.ScanAck? || a.ScanTimeout? {
      ScanAnswerBudget(w, a, guid);
    } else if a.RetrySave? || a.Save? {
      SaveBudget(w, a, guid);
    } else {
      PassBudget(w, a, guid);
    }
  }

  lemma StepBudget(w: World, a: Action, guid: string)
    requires Inv(w) && TodoPending(w) && Within(w, guid) && Enabled(w, a)
    ensures Within(Apply(w, a), guid)
  {
    if ChangesChat(a) {
      ChatBudget(w, a, guid);
    } else if a.Commit? {
      CommitBudget(w, a.write, Apply(w, a), guid);
    } else if a.EmitterDies? {
      DeathBudget(w, guid);
    } else if a.Crash? {
      FaultPays(w, Apply(w, a), guid);
    } else {
      WorkerBudget(w, a, guid);
    }
  }

  lemma {:induction false} RunBudget(ws: seq<World>, acts: seq<Action>, i: nat, guid: string)
    requires IsRun(ws, acts) && i < |ws|
    ensures Inv(ws[i]) && TodoPending(ws[i]) && Within(ws[i], guid)
  {
    RunInv(ws, acts, i);
    if i > 0 {
      RunBudget(ws, acts, i - 1, guid);
      StepTodo(ws[i - 1], acts[i - 1]);
      StepBudget(ws[i - 1], acts[i - 1], guid);
    }
  }

  /** In every run, the number of `message.received` entries for one provider guid is at most
      one more than the faults so far: crashes, failed saves, and entries that were stored
      while their request was answered with an error or awaited by nobody. In a run without
      them, at most one; a request that timed out and was never stored costs nothing. */
  lemma BoundedDuplication(ws: seq<World>, acts: seq<Action>, i: nat, guid: string)
    requires IsRun(ws, acts) && i < |ws|
    ensures Tally(ws[i].journal, guid) <= 1 + ws[i].faults
  {
    RunBudget(ws, acts, i, guid);
  }
}
