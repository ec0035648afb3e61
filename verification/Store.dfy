/** state.db as the daemon drives it: each method is one transaction or one query. */
module Store {
  import opened Wrappers
  import opened Model
  import opened Fingerprint
  import opened Journal
  import opened Tables

  datatype Operation = Accepting | Claiming | RecordingSent | RecordingFailed | Binding | Advancing | RecordingEvent
                     | LoadingQueue | LoadingFlight

  /** Whether an operation went through. */
  datatype Outcome = Outcome(operation: Operation, ok: bool)

  ghost function Failures(outcomes: seq<Outcome>, operation: Operation): nat {
    multiset(outcomes)[Outcome(operation, false)]
  }

  class Store {
    const sha: Digest
    const installation: string
    var outbound: seq<OutboundRow>
    var idempotency: map<string, IdempotencyRow>
    var events: seq<JournaledEvent>
    ghost var commits: seq<Outcome> // history: how every transaction ended, written by `Commits` alone
    ghost var queries: seq<Outcome> // history: how every query for work ended, written by `Answers` alone

    /** A database file that does not exist yet. */
    constructor (sha: Digest, installation: string)
      ensures Db() == Tables.Db(installation, [], map[], []) && this.sha == sha
    {
      this.sha := sha;
      this.installation := installation;
      outbound, idempotency, events, commits, queries := [], map[], [], [], [];
    }

    function Db(): Tables.Db
      reads `outbound, `idempotency, `events
    {
      Tables.Db(installation, outbound, idempotency, events)
    }

    /** Whether the database carries a transaction through. */
    method Commits(operation: Operation) returns (ok: bool)
      modifies `commits
      ensures commits == old(commits) + [Outcome(operation, ok)]
    {
      ok := *;
      commits := commits + [Outcome(operation, ok)];
    }

    /** Whether the database answers a query. */
    method Answers(operation: Operation) returns (ok: bool)
      modifies `queries
      ensures queries == old(queries) + [Outcome(operation, ok)]
    {
      ok := *;
      queries := queries + [Outcome(operation, ok)];
    }

    /** The migrations that `open` runs, in order. */
    method Reopen()
      modifies `outbound, `idempotency
      ensures Db() == Backfill(MigrateUnknown(old(Db())))
    {
      var rows := outbound;
      for i := 0 to |outbound|
        invariant |rows| == |outbound| && outbound == old(outbound)
        invariant rows[..i] == MigrateUnknown(old(Db())).outbound[..i] && rows[i..] == outbound[i..]
        invariant idempotency == old(idempotency) && events == old(events)
      {
        var row := outbound[i];
        assert rows[i] == row;
        if row.dispatchState == Stalled && row.guid.None? && row.text.Some? {
          rows := rows[i := row.(dispatchState := SentUnbound, lastStatus := Sent)];
        }
      }
      assert rows == rows[..|outbound|] && MigrateUnknown(old(Db())).outbound[..|outbound|] == MigrateUnknown(old(Db())).outbound;
      outbound := rows;
      assert Db() == MigrateUnknown(old(Db()));
      idempotency := Backfill(Db()).idempotency;
    }

    /** Appends to the journal inside a transaction. */
    method InsertEvent(event: Event, now: string) returns (journaled: JournaledEvent)
      modifies `events
      ensures events == Append(old(events), installation, event, now)
      ensures journaled == events[|events| - 1]
    {
      journaled := JournaledEvent(installation, NextId(events), event, now);
      events := events + [journaled];
    }

    method AcceptAndRecordQueued(job: SendJob, now: string) returns (r: Result<AcceptedSend, StoreError>)
      modifies `outbound, `idempotency, `events, `commits
      ensures r == Failure(Fault) ==> Db() == old(Db())
      ensures r != Failure(Fault) ==> (Db(), r) == Accept(sha, old(Db()), job, now)
      ensures commits == old(commits) + [Outcome(Accepting, r != Failure(Fault))]
    {
      var ok := Commits(Accepting);
      if !ok {
        return Failure(Fault);
      }
      var keys := idempotency;
      if job.clientRef.Some? {
        var ref := job.clientRef.value;
        var fingerprint := ComputeFingerprint(sha, job);
        if ref in keys && keys[ref].fingerprint.Some? {
          if keys[ref].fingerprint.value != fingerprint {
            return Failure(Conflict(ref));
          }
          return Success(AcceptedSend(keys[ref].messageId, StatusOf(Db(), keys[ref].messageId), false, None, true));
        }
        if IdTaken(Db(), ref, job.messageId) {
          return Failure(Constraint);
        }
        keys := keys[ref := IdempotencyRow(job.messageId, Some(fingerprint))];
      }
      if Find(outbound, job.messageId) < |outbound| {
        return Failure(Constraint);
      }
      idempotency := keys;
      outbound := outbound + [NewRow(job, now)];
      var journaled := InsertEvent(QueuedEventOf(job, now), now);
      return Success(AcceptedSend(job.messageId, Queued, true, Some(journaled), job.clientRef.Some?));
    }

    method MarkDispatching(id: string, pre: int) returns (r: Result<bool, StoreError>)
      modifies `outbound, `commits
      ensures r.Failure? ==> Db() == old(Db())
      ensures r.Success? ==> (Db(), r.value) == Tables.MarkDispatching(old(Db()), id, pre)
      ensures commits == old(commits) + [Outcome(Claiming, r.Success?)]
    {
      var ok := Commits(Claiming);
      if !ok {
        return Failure(Fault);
      }
      var i := Find(outbound, id);
      if i == |outbound| || outbound[i].dispatchState != Waiting {
        return Success(false);
      }
      outbound := outbound[i := outbound[i].(dispatchState := Dispatching, preRowid := pre)];
      return Success(true);
    }

    method RecordSentAcceptance(job: SendJob, now: string) returns (r: Result<JournaledEvent, StoreError>)
      modifies `outbound, `events, `commits
      ensures r.Failure? ==> Db() == old(Db())
      ensures r.Success? ==> Db() == Tables.RecordSentAcceptance(old(Db()), job, now) && Some(r.value) == LastEntry(Db())
      ensures commits == old(commits) + [Outcome(RecordingSent, r.Success?)]
    {
      var ok := Commits(RecordingSent);
      if !ok {
        return Failure(Fault);
      }
      var i := Find(outbound, job.messageId);
      if i < |outbound| {
        outbound := outbound[i := outbound[i].(dispatchState := SentUnbound)];
      }
      var journaled := InsertEvent(JobEvent(SentEvent, job, now), now);
      return Success(journaled);
    }

    method RecordFailed(job: SendJob, reason: string, now: string) returns (r: Result<JournaledEvent, StoreError>)
      modifies `outbound, `events, `commits
      ensures r.Failure? ==> Db() == old(Db())
      ensures r.Success? ==> Db() == Tables.RecordFailed(old(Db()), job, reason, now) && Some(r.value) == LastEntry(Db())
      ensures commits == old(commits) + [Outcome(RecordingFailed, r.Success?)]
    {
      var ok := Commits(RecordingFailed);
      if !ok {
        return Failure(Fault);
      }
      var i := Find(outbound, job.messageId);
      if i < |outbound| {
        outbound := outbound[i := outbound[i].(dispatchState := Refused, lastStatus := Failed)];
      }
      var journaled := InsertEvent(JobEvent(FailedEvent, job, now).(reason := Some(reason)), now);
      return Success(journaled);
    }

    method BindAndRecordSent(id: string, rowid: int, guid: string, chatId: Option<string>, now: string)
      returns (r: Result<Option<JournaledEvent>, StoreError>)
      modifies `outbound, `events, `commits
      ensures r.Failure? ==> Db() == old(Db())
      ensures r.Success? ==> (Db(), r.value.Some?) == Tables.BindAndRecordSent(old(Db()), id, rowid, guid, chatId, now)
      ensures r.Success? && r.value.Some? ==> r.value == LastEntry(Db())
      ensures commits == old(commits) + [Outcome(Binding, r.Success?)]
    {
      var ok := Commits(Binding);
      if !ok {
        return Failure(Fault);
      }
      var i := Find(outbound, id);
      if i == |outbound| || outbound[i].guid.Some? {
        return Success(None);
      }
      outbound := outbound[i := outbound[i].(guid := Some(guid), rowid := Some(rowid), chatId := chatId,
                                             lastStatus := Sent, dispatchState := Bound)];
      var first := FindGuid(outbound, guid);
      assert outbound[i].guid == Some(guid);
      var journaled := InsertEvent(StatusEventOf(outbound[first], Sent, now), now);
      return Success(Some(journaled));
    }

    method AdvanceStatusAndRecord(guid: string, status: Status, timestamp: string, now: string)
      returns (r: Result<Option<JournaledEvent>, StoreError>)
      modifies `outbound, `events, `commits
      ensures r.Failure? ==> Db() == old(Db())
      ensures r.Success? ==> (Db(), r.value.Some?) == AdvanceStatus(old(Db()), guid, status, timestamp, now)
      ensures r.Success? && r.value.Some? ==> r.value == LastEntry(Db())
      ensures commits == old(commits) + [Outcome(Advancing, r.Success?)]
    {
      var ok := Commits(Advancing);
      if !ok {
        return Failure(Fault);
      }
      var first := FindGuid(outbound, guid);
      if first == |outbound| || Rank(status) <= Rank(outbound[first].lastStatus) {
        return Success(None);
      }
      var event := StatusEventOf(outbound[first], status, timestamp);
      outbound := SetStatus(outbound, guid, status);
      var journaled := InsertEvent(event, now);
      return Success(Some(journaled));
    }

    /** `record_event`: the only way in for an event that no table change accompanies. */
    method RecordEvent(event: Event, now: string) returns (r: Result<JournaledEvent, StoreError>)
      modifies `events, `commits
      ensures commits == old(commits) + if ValidPublicEvent(event) then [Outcome(RecordingEvent, r.Success?)] else []
      ensures r.Success? ==> ValidPublicEvent(event) && Db() == Journaled(old(Db()), event, now)
                             && Some(r.value) == LastEntry(Db())
      ensures r.Failure? ==> Db() == old(Db()) && (r.error == Constraint <==> !ValidPublicEvent(event))
    {
      if !ValidPublicEvent(event) {
        return Failure(Constraint);
      }
      var ok := Commits(RecordingEvent);
      if !ok {
        return Failure(Fault);
      }
      var journaled := InsertEvent(event, now);
      return Success(journaled);
    }

    method NextQueued() returns (r: Result<Option<DurableSend>, StoreError>)
      modifies `queries
      ensures r.Success? ==> r.value == Tables.NextQueued(Db())
      ensures queries == old(queries) + [Outcome(LoadingQueue, r.Success?)]
    {
      var ok := Answers(LoadingQueue);
      if !ok {
        return Failure(Fault);
      }
      var best := |outbound|;
      for n := 0 to |outbound|
        invariant best == FirstWaiting(outbound, n)
      {
        if outbound[n].dispatchState == Waiting && (best == |outbound| || !Before(outbound[best], outbound[n])) {
          best := n;
        }
      }
      return Success(if best < |outbound| then ToSend(outbound[best]) else None);
    }

    /** The query: the rows in flight, in queue order. */
    method QueryInFlight() returns (rows: seq<OutboundRow>)
      ensures rows == InFlightRows(outbound)
    {
      rows := [];
      for i := |outbound| downto 0
        invariant rows == InFlightRows(outbound[i..])
      {
        assert outbound[i..][1..] == outbound[i + 1..];
        if InFlight(outbound[i].dispatchState) {
          rows := InsertRow(outbound[i], rows);
        }
      }
      assert outbound[0..] == outbound;
    }

    method RecoverableSends() returns (r: Result<seq<DurableSend>, StoreError>)
      modifies `queries
      ensures r.Success? ==> r.value == Tables.RecoverableSends(Db())
      ensures queries == old(queries) + [Outcome(LoadingFlight, r.Success?)]
    {
      var ok := Answers(LoadingFlight);
      if !ok {
        return Failure(Fault);
      }
      var rows := QueryInFlight();
      var sends: seq<DurableSend> := [];
      for i := 0 to |rows|
        invariant sends + DecodeSends(rows[i..]) == DecodeSends(rows)
      {
        assert rows[i..][1..] == rows[i + 1..];
        var send := ToSend(rows[i]);
        if send.Some? {
          sends := sends + [send.value];
        }
      }
      assert rows[|rows|..] == [];
      return Success(sends);
    }
  }
}
