/** The durable send queue: order, completeness and what a drain removes. */
module SendQueue {
  import opened Wrappers
  import opened Strings
  import opened Model
  import opened Fingerprint
  import opened Tables
  import opened Lifecycle
  import opened Resolver
  import opened Outbound
  import opened Idempotency

  lemma BeforeTotal(a: OutboundRow, b: OutboundRow)
    ensures Before(a, b) || Before(b, a)
  {
    LeTotal(a.createdAt, b.createdAt);
    LeTotal(a.messageId, b.messageId);
    if Le(a.createdAt, b.createdAt) && Le(b.createdAt, a.createdAt) {
      LeAntisymmetric(a.createdAt, b.createdAt);
    }
  }

  lemma BeforeTransitive(a: OutboundRow, b: OutboundRow, c: OutboundRow)
    requires Before(a, b) && Before(b, c)
    ensures Before(a, c)
  {
    LeTransitive(a.createdAt, b.createdAt, c.createdAt);
    if a.createdAt == c.createdAt {
      LeAntisymmetric(a.createdAt, b.createdAt);
      LeTransitive(a.messageId, b.messageId, c.messageId);
    }
  }

  lemma {:induction false} FirstWaitingExactly(rows: seq<OutboundRow>, n: nat)
    requires n <= |rows|
    ensures var i := FirstWaiting(rows, n);
            if i < |rows| then forall j :: 0 <= j < n && rows[j].dispatchState == Waiting ==> Before(rows[i], rows[j])
            else forall j :: 0 <= j < n ==> rows[j].dispatchState != Waiting
  {
    if n > 0 {
      FirstWaitingExactly(rows, n - 1);
      var before, i := FirstWaiting(rows, n - 1), FirstWaiting(rows, n);
      var last := rows[n - 1];
      if last.dispatchState == Waiting {
        BeforeTotal(last, last);
        if before < |rows| {
          BeforeTotal(rows[before], last);
          forall j | 0 <= j < n && rows[j].dispatchState == Waiting ensures Before(rows[i], rows[j]) {
            if i == n - 1 && j < n - 1 { BeforeTransitive(last, rows[before], rows[j]); }
          }
        }
      }
    }
  }

  /** `next_queued` answers nothing exactly when nothing is queued; otherwise it answers the
      least queued row by acceptance time and message id. */
  lemma NextQueuedExactly(db: Db)
    requires TableOk(db.outbound)
    ensures NextQueued(db) == None <==> forall j :: 0 <= j < |db.outbound| ==> db.outbound[j].dispatchState != Waiting
    ensures NextQueued(db).Some? ==>
              exists i :: 0 <= i < |db.outbound| && db.outbound[i].dispatchState == Waiting
                && ToSend(db.outbound[i]) == NextQueued(db)
                && forall j :: 0 <= j < |db.outbound| && db.outbound[j].dispatchState == Waiting ==>
                                 Before(db.outbound[i], db.outbound[j])
  {
    var i := FirstWaiting(db.outbound, |db.outbound|);
    FirstWaitingExactly(db.outbound, |db.outbound|);
    if i < |db.outbound| { assert WellFormedRow(db.outbound[i]); }
  }

  /** Rows were accepted in the order of their acceptance times. */
  ghost predicate ClockOrdered(rows: seq<OutboundRow>) {
    forall i, j :: 0 <= i < j < |rows| ==> Le(rows[i].createdAt, rows[j].createdAt)
  }

  /** With a nondecreasing clock a queued job waits only behind jobs accepted before it or
      in the same second. */
  lemma OvertakenOnlyWithinASecond(db: Db, i: nat, j: nat)
    requires TableOk(db.outbound) && ClockOrdered(db.outbound) && j < i < |db.outbound|
    requires i == FirstWaiting(db.outbound, |db.outbound|) && db.outbound[j].dispatchState == Waiting
    ensures db.outbound[j].createdAt == db.outbound[i].createdAt
  {
    FirstWaitingExactly(db.outbound, |db.outbound|);
    LeAntisymmetric(db.outbound[i].createdAt, db.outbound[j].createdAt);
  }

  /** Every request in the run carries a time no earlier than the rows before it. */
  ghost predicate ClockMovesForward(w: World, a: Action) {
    a.Request? ==> forall i :: 0 <= i < |w.db.outbound| ==> Le(w.db.outbound[i].createdAt, a.now)
  }

  lemma StepClock(sha: Digest, w: World, a: Action)
    requires Enabled(w, a) && ClockOrdered(w.db.outbound) && ClockMovesForward(w, a)
    ensures ClockOrdered(Apply(sha, w, a).db.outbound)
  {
    StepEvolves(sha, w, a);
    var rows, rows' := w.db.outbound, Apply(sha, w, a).db.outbound;
    if a.Request? {
      assert rows' == rows || rows' == rows + [NewRow(a.job, a.now)];
    } else {
      SameNumberOfRows(sha, w, a);
      forall i, j | 0 <= i < j < |rows'| ensures Le(rows'[i].createdAt, rows'[j].createdAt) {
        assert Evolves(rows[i], rows'[i]) && Evolves(rows[j], rows'[j]);
      }
    }
  }

  lemma SameNumberOfRows(sha: Digest, w: World, a: Action)
    requires Enabled(w, a) && !a.Request?
    ensures |Apply(sha, w, a).db.outbound| == |w.db.outbound|
  {
    DbStep(sha, w, a);
  }

  lemma {:induction false} RunClock(sha: Digest, ws: seq<World>, acts: seq<Action>, i: nat)
    requires IsRun(sha, ws, acts) && i < |ws|
    requires forall k :: 0 <= k < |acts| ==> ClockMovesForward(ws[k], acts[k])
    ensures ClockOrdered(ws[i].db.outbound)
  {
    if i > 0 {
      RunClock(sha, ws, acts, i - 1);
      StepClock(sha, ws[i - 1], acts[i - 1]);
    }
  }

  function QueueLength(rows: seq<OutboundRow>): nat {
    if rows == [] then 0
    else (if rows[0].dispatchState == Waiting then 1 else 0) + QueueLength(rows[1..])
  }

  lemma {:induction false} LengthSplits(rows: seq<OutboundRow>, rows': seq<OutboundRow>)
    ensures QueueLength(rows + rows') == QueueLength(rows) + QueueLength(rows')
  {
    if rows == [] {
      assert rows + rows' == rows';
    } else {
      assert (rows + rows')[1..] == rows[1..] + rows';
      LengthSplits(rows[1..], rows');
    }
  }

  lemma LengthUpdate(rows: seq<OutboundRow>, i: nat, row: OutboundRow)
    requires i < |rows|
    ensures QueueLength(rows[i := row]) == QueueLength(rows) - (if rows[i].dispatchState == Waiting then 1 else 0)
                                      + (if row.dispatchState == Waiting then 1 else 0)
  {
    assert rows == rows[..i] + ([rows[i]] + rows[i + 1..]);
    assert rows[i := row] == rows[..i] + ([row] + rows[i + 1..]);
    LengthSplits(rows[..i], [rows[i]] + rows[i + 1..]);
    LengthSplits(rows[..i], [row] + rows[i + 1..]);
    LengthSplits([rows[i]], rows[i + 1..]);
    LengthSplits([row], rows[i + 1..]);
  }

  /** Once a job is loaded, a claim that does not fault takes exactly one row off the queue. */
  lemma ClaimTakesOne(sha: Digest, w: World)
    requires Inv(w) && w.pc.Captured?
    ensures QueueLength(Apply(sha, w, Claim(false)).db.outbound) == QueueLength(w.db.outbound) - 1
  {
    var rows := w.db.outbound;
    var i := Find(rows, w.pc.job.messageId);
    LengthUpdate(rows, i, rows[i].(dispatchState := Dispatching, preRowid := w.pc.pre));
  }

  lemma RecordsDequeueNone(db: Db, job: SendJob, reason: string, now: string, i: nat)
    requires HasState(db.outbound, job, Dispatching) && i < |db.outbound| && db.outbound[i].dispatchState == Waiting
    ensures RecordSentAcceptance(db, job, now).outbound[i].dispatchState == Waiting
    ensures RecordFailed(db, job, reason, now).outbound[i].dispatchState == Waiting
  {
  }

  lemma BindDequeuesNone(db: Db, send: DurableSend, row: ResolvedRow, now: string, i: nat)
    requires IsInFlight(db.outbound, send) && i < |db.outbound| && db.outbound[i].dispatchState == Waiting
    ensures var db' := BindAndRecordSent(db, send.job.messageId, row.rowid, row.guid, row.chatId, now).0;
            i < |db'.outbound| && db'.outbound[i].dispatchState == Waiting
  {
  }

  lemma AcceptKeepsLength(sha: Digest, db: Db, job: SendJob, now: string)
    ensures |Accept(sha, db, job, now).0.outbound| >= |db.outbound|
  {
  }

  lemma AdvanceDequeuesNone(db: Db, guid: string, status: Status, timestamp: string, now: string, i: nat)
    requires i < |db.outbound| && db.outbound[i].dispatchState == Waiting
    ensures AdvanceStatus(db, guid, status, timestamp, now).0.outbound[i].dispatchState == Waiting
  {
  }

  /** Only a claim takes a row off the queue. */
  lemma OnlyClaimsDequeue(sha: Digest, w: World, a: Action, i: nat)
    requires Inv(w) && Enabled(w, a) && a != Claim(false)
    requires i < |w.db.outbound| && w.db.outbound[i].dispatchState == Waiting
    ensures i < |DbAfter(sha, w, a).outbound| && DbAfter(sha, w, a).outbound[i].dispatchState == Waiting
  {
    match a
    case Request(job, now) =>
      AcceptKeepsLength(sha, w.db, job, now);
      AcceptAppends(sha, w.db, job, now, i);
    case RecordAcceptance(_, now) => RecordsDequeueNone(w.db, w.pc.job, "", now, i);
    case RecordFailure(_, now) => RecordsDequeueNone(w.db, w.pc.job, w.pc.reason, now, i);
    case Bind(_, now) => BindDequeuesNone(w.db, w.pc.todo[0], w.pc.row, now, i);
    case Correlate(_, now) =>
      AdvanceDequeuesNone(w.db, w.mail[0].guid, w.mail[0].status, w.mail[0].timestamp, now, i);
    case _ =>
  }

  lemma {:induction false} LengthSame(rows: seq<OutboundRow>, rows': seq<OutboundRow>)
    requires |rows| == |rows'|
    requires forall i :: 0 <= i < |rows| ==> (rows[i].dispatchState == Waiting <==> rows'[i].dispatchState == Waiting)
    ensures QueueLength(rows) == QueueLength(rows')
  {
    if rows != [] {
      assert rows[0].dispatchState == Waiting <==> rows'[0].dispatchState == Waiting;
      LengthSame(rows[1..], rows'[1..]);
    }
  }

  lemma RequestQueues(sha: Digest, w: World, job: SendJob, now: string)
    ensures var rows, rows' := w.db.outbound, ApplyRequest(sha, w, job, now).db.outbound;
            QueueLength(rows') - QueueLength(rows) == |rows'| - |rows|
  {
    var rows, rows' := w.db.outbound, ApplyRequest(sha, w, job, now).db.outbound;
    assert rows' == rows || rows' == rows + [NewRow(job, now)];
    LengthSplits(rows, [NewRow(job, now)]);
    assert QueueLength([NewRow(job, now)]) == 1;
  }

  /** What a step does to the length of the queue: a new row is queued, a claim takes one. */
  lemma StepLength(sha: Digest, w: World, a: Action, w': World)
    requires Inv(w) && Enabled(w, a) && w' == Apply(sha, w, a)
    ensures QueueLength(w'.db.outbound) - |w'.db.outbound|
         == QueueLength(w.db.outbound) - |w.db.outbound| - if a == Claim(false) then 1 else 0
  {
    if a.Request? {
      RequestQueues(sha, w, a.job, a.now);
    } else {
      SameNumberOfRows(sha, w, a);
      if a == Claim(false) {
        ClaimTakesOne(sha, w);
      } else {
        DbStep(sha, w, a);
        DbEvolves(sha, w, a);
        var rows, rows' := w.db.outbound, w'.db.outbound;
        forall i | 0 <= i < |rows| ensures rows[i].dispatchState == Waiting <==> rows'[i].dispatchState == Waiting {
          if rows[i].dispatchState == Waiting { OnlyClaimsDequeue(sha, w, a, i); }
          assert Evolves(rows[i], rows'[i]);
        }
        LengthSame(rows, rows');
      }
    }
  }

  /** The claims that took effect. */
  function Claims(acts: seq<Action>): nat {
    if acts == [] then 0
    else Claims(acts[..|acts| - 1]) + if acts[|acts| - 1] == Claim(false) then 1 else 0
  }

  /** In every reachable state each row is queued or was taken by one claim. */
  lemma {:induction false} QueueConserved(sha: Digest, ws: seq<World>, acts: seq<Action>, i: nat)
    requires IsRun(sha, ws, acts) && i <= |acts|
    ensures QueueLength(ws[i].db.outbound) + Claims(acts[..i]) == |ws[i].db.outbound|
  {
    if i > 0 {
      QueueConserved(sha, ws, acts, i - 1);
      LengthAt(sha, ws, acts, i - 1);
      assert acts[..i][..i - 1] == acts[..i - 1];
    }
  }

  lemma LengthAt(sha: Digest, ws: seq<World>, acts: seq<Action>, i: nat)
    requires IsRun(sha, ws, acts) && i < |acts|
    ensures QueueLength(ws[i + 1].db.outbound) - |ws[i + 1].db.outbound|
         == QueueLength(ws[i].db.outbound) - |ws[i].db.outbound| - if acts[i] == Claim(false) then 1 else 0
  {
    RunInv(sha, ws, acts, i);
    StepLength(sha, ws[i], acts[i], ws[i + 1]);
  }

  lemma {:induction false} LengthZero(rows: seq<OutboundRow>)
    ensures QueueLength(rows) == 0 <==> forall j :: 0 <= j < |rows| ==> rows[j].dispatchState != Waiting
  {
    if rows != [] {
      LengthZero(rows[1..]);
      assert forall j :: 0 < j < |rows| ==> rows[j] == rows[1..][j - 1];
      if QueueLength(rows) == 0 {
        forall j | 0 <= j < |rows| ensures rows[j].dispatchState != Waiting {
          if j > 0 { assert rows[1..][j - 1].dispatchState != Waiting; }
        }
      } else if rows[0].dispatchState != Waiting {
        var j :| 0 <= j < |rows[1..]| && rows[1..][j].dispatchState == Waiting;
        assert rows[j + 1].dispatchState == Waiting;
      }
    }
  }

  /** Between two states of a run, the queue reads empty at the second exactly when the claims
      in between are as many as were queued at the first plus the rows accepted in between. */
  lemma DrainedExactly(sha: Digest, ws: seq<World>, acts: seq<Action>, i: nat, j: nat)
    requires IsRun(sha, ws, acts) && i <= j <= |acts|
    ensures var rows, rows' := ws[i].db.outbound, ws[j].db.outbound;
            NextQueued(ws[j].db) == None <==>
              Claims(acts[..j]) - Claims(acts[..i]) == QueueLength(rows) + |rows'| - |rows|
  {
    QueueConserved(sha, ws, acts, i);
    QueueConserved(sha, ws, acts, j);
    RunInv(sha, ws, acts, j);
    NextQueuedExactly(ws[j].db);
    LengthZero(ws[j].db.outbound);
  }

  /** The job the worker loads is, field by field, the job that was accepted. */
  lemma LoadedIsAccepted(sha: Digest, ws: seq<World>, acts: seq<Action>, i: nat, k: nat)
    requires IsRun(sha, ws, acts) && i < |ws| && k < |ws[i].replies| && ws[i].replies[k].isNew
    requires ws[i].pc.Loaded? && ws[i].pc.job.messageId == ws[i].replies[k].messageId
    ensures ws[i].pc.job == ws[i].replies[k].job
  {
    RunIdem(sha, ws, acts, i);
    assert ReplyOk(sha, ws[i].db, ws[i].replies[k]);
  }

  ghost predicate InQueueOrder(rows: seq<OutboundRow>) {
    forall k, l :: 0 <= k < l < |rows| ==> Before(rows[k], rows[l])
  }

  lemma {:induction false} InsertKeepsOrder(row: OutboundRow, sorted: seq<OutboundRow>)
    requires InQueueOrder(sorted)
    ensures InQueueOrder(InsertRow(row, sorted))
  {
    if sorted == [] {
    } else if Before(row, sorted[0]) {
      forall l | 0 <= l < |sorted| ensures Before(row, sorted[l]) {
        if l > 0 { BeforeTransitive(row, sorted[0], sorted[l]); }
      }
    } else {
      BeforeTotal(row, sorted[0]);
      InsertKeepsOrder(row, sorted[1..]);
      var tail := InsertRow(row, sorted[1..]);
      forall l | 0 <= l < |tail| ensures Before(sorted[0], tail[l]) {
        InsertRowMembers(row, sorted[1..]);
        assert tail[l] in tail;
        if tail[l] != row {
          var k :| 0 <= k < |sorted[1..]| && sorted[1..][k] == tail[l];
          assert Before(sorted[0], sorted[k + 1]);
        }
      }
    }
  }

  /** Recovery goes through the sends in flight in queue order. */
  lemma {:induction false} InFlightInOrder(rows: seq<OutboundRow>)
    ensures InQueueOrder(InFlightRows(rows))
  {
    if rows != [] {
      InFlightInOrder(rows[1..]);
      InsertKeepsOrder(rows[0], InFlightRows(rows[1..]));
    }
  }
}
