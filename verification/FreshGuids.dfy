/** When sends are taken one at a time, no two of them are bound to one provider guid. */
module FreshGuids {
  import opened Wrappers
  import opened Model
  import opened Fingerprint
  import opened Tables
  import opened Lifecycle
  import opened Resolver
  import opened Outbound
  import opened JournalRuns
  import opened Watermark

  /** A claim made while no send is in flight, with its watermark read from chat.db. */
  ghost predicate ClaimsAlone(w: World, a: Action) {
    a == Claim(false) && w.pc.Captured? ==>
      w.pc.mark.Some? && forall i :: 0 <= i < |w.db.outbound| ==> !InFlight(w.db.outbound[i].dispatchState)
  }

  ghost predicate SoloRun(sha: Digest, ws: seq<World>, acts: seq<Action>) {
    IsRun(sha, ws, acts) && forall i :: 0 <= i < |acts| ==> ClaimsAlone(ws[i], acts[i])
  }

  /** A row holds a ROWID exactly when it holds a guid, and they belong together. */
  ghost predicate Identified(ids: map<int, string>, row: OutboundRow) {
    (row.guid.Some? <==> row.rowid.Some?)
    && (row.rowid.Some? ==> row.rowid.value in ids && ids[row.rowid.value] == row.guid.value)
  }

  /** What is bound lies at or below the mark of what is in flight, and that is one send. */
  ghost predicate BelowFlight(w: World, i: nat)
    requires i < |w.db.outbound|
  {
    var rows, id := w.db.outbound, w.db.outbound[i].messageId;
    InFlight(rows[i].dispatchState) ==>
      id in w.marks
      && (forall k :: 0 <= k < |rows| && rows[k].rowid.Some? ==> rows[k].rowid.value <= w.marks[id])
      && forall k :: 0 <= k < |rows| && InFlight(rows[k].dispatchState) ==> k == i
  }

  ghost predicate SoloInv(w: World) {
    (forall i :: 0 <= i < |w.db.outbound| ==> Identified(w.ids, w.db.outbound[i]))
    && (forall i :: 0 <= i < |w.db.outbound| ==> BelowFlight(w, i))
    && (w.pc.Found? ==> w.pc.row.rowid in w.ids && w.ids[w.pc.row.rowid] == w.pc.row.guid)
  }

  /** The row found for the send in flight lies above everything bound, so its guid is new. */
  lemma FoundIsFresh(w: World)
    requires Inv(w) && WatermarkInv(w) && SoloInv(w) && w.pc.Found?
    ensures FreshGuid(w.db, w.pc.row.guid)
  {
    var rows, send := w.db.outbound, w.pc.todo[0];
    var i := Find(rows, send.job.messageId);
    assert IsInFlight(rows, send) && BelowFlight(w, i);
    forall k | 0 <= k < |rows| ensures rows[k].guid != Some(w.pc.row.guid) {
      assert Identified(w.ids, rows[k]);
    }
  }

  ghost predicate IdsKept(ids: map<int, string>, ids': map<int, string>) {
    forall c :: c in ids ==> c in ids' && ids'[c] == ids[c]
  }

  lemma IdentifiedStays(ids: map<int, string>, ids': map<int, string>, row: OutboundRow)
    requires IdsKept(ids, ids') && Identified(ids, row)
    ensures Identified(ids', row)
  {
    if row.rowid.Some? {
      var rowid: int := row.rowid.value;
      assert rowid in ids && rowid in ids';
    }
  }

  /** Steps that leave the rows' states, ROWIDs and guids alone. */
  ghost predicate Calm(w: World, w': World) {
    var rows, rows' := w.db.outbound, w'.db.outbound;
    |rows| <= |rows'| && w'.marks == w.marks
    && (forall i :: 0 <= i < |rows| ==>
          rows'[i].messageId == rows[i].messageId && rows'[i].guid == rows[i].guid && rows'[i].rowid == rows[i].rowid
          && (InFlight(rows'[i].dispatchState) ==> InFlight(rows[i].dispatchState)))
    && (forall i :: |rows| <= i < |rows'| ==>
          rows'[i].guid.None? && rows'[i].rowid.None? && !InFlight(rows'[i].dispatchState))
    && IdsKept(w.ids, w'.ids)
  }

  lemma CalmIdentifies(w: World, w': World, i: nat)
    requires Calm(w, w') && i < |w'.db.outbound|
    requires i < |w.db.outbound| ==> Identified(w.ids, w.db.outbound[i])
    ensures Identified(w'.ids, w'.db.outbound[i])
  {
    if i < |w.db.outbound| {
      var row, row' := w.db.outbound[i], w'.db.outbound[i];
      assert row'.guid == row.guid && row'.rowid == row.rowid;
      IdentifiedStays(w.ids, w'.ids, row);
    }
  }

  lemma CalmStaysBelow(w: World, w': World, i: nat)
    requires Calm(w, w') && i < |w'.db.outbound|
    requires i < |w.db.outbound| ==> BelowFlight(w, i)
    ensures BelowFlight(w', i)
  {
    if i < |w.db.outbound| && InFlight(w'.db.outbound[i].dispatchState) {
      forall k | 0 <= k < |w'.db.outbound| && InFlight(w'.db.outbound[k].dispatchState) ensures k == i {
        assert k < |w.db.outbound|;
      }
    }
  }

  lemma CalmKeeps(w: World, w': World)
    requires SoloInv(w) && Calm(w, w')
    requires w'.pc.Found? ==> w'.pc.row.rowid in w'.ids && w'.ids[w'.pc.row.rowid] == w'.pc.row.guid
    ensures SoloInv(w')
  {
    forall i | 0 <= i < |w'.db.outbound| ensures Identified(w'.ids, w'.db.outbound[i]) && BelowFlight(w', i) {
      CalmIdentifies(w, w', i);
      CalmStaysBelow(w, w', i);
    }
  }

  // What puts a row in flight

  lemma RecordsFlyNone(db: Db, job: SendJob, reason: string, now: string, i: nat)
    requires HasState(db.outbound, job, Dispatching) && i < |db.outbound|
    ensures InFlight(RecordSentAcceptance(db, job, now).outbound[i].dispatchState) ==> InFlight(db.outbound[i].dispatchState)
    ensures InFlight(RecordFailed(db, job, reason, now).outbound[i].dispatchState) ==> InFlight(db.outbound[i].dispatchState)
  {
  }

  lemma AdvanceFliesNone(db: Db, guid: string, status: Status, timestamp: string, now: string, i: nat)
    requires i < |db.outbound|
    ensures AdvanceStatus(db, guid, status, timestamp, now).0.outbound[i].dispatchState == db.outbound[i].dispatchState
  {
  }

  /** Only a claim puts a row in flight. */
  lemma OnlyClaimsFly(sha: Digest, w: World, a: Action, i: nat)
    requires Inv(w) && Enabled(w, a) && a != Claim(false) && !a.Bind?
    requires i < |DbAfter(sha, w, a).outbound| && InFlight(DbAfter(sha, w, a).outbound[i].dispatchState)
    ensures i < |w.db.outbound| && InFlight(w.db.outbound[i].dispatchState)
  {
    match a
    case Request(job, now) => AcceptAppends(sha, w.db, job, now, i);
    case RecordAcceptance(_, now) => RecordsFlyNone(w.db, w.pc.job, "", now, i);
    case RecordFailure(_, now) => RecordsFlyNone(w.db, w.pc.job, w.pc.reason, now, i);
    case Correlate(_, now) =>
      AdvanceFliesNone(w.db, w.mail[0].guid, w.mail[0].status, w.mail[0].timestamp, now, i);
    case MigrateStep => NothingStalled(w.db);
    case _ =>
  }

  lemma IdsGrow(sha: Digest, w: World, a: Action, w': World)
    requires ChatOk(w) && Enabled(w, a) && w' == Apply(sha, w, a)
    ensures IdsKept(w.ids, w'.ids)
    ensures w'.pc.Found? && !w.pc.Found? ==> w'.pc.row.rowid in w'.ids && w'.ids[w'.pc.row.rowid] == w'.pc.row.guid
    ensures w'.pc.Found? && w.pc.Found? ==> w'.pc == w.pc
  {
    PcMoves(sha, w, a, w');
    if !a.ChatInsert? && !a.ChatDelete? { ChatStays(sha, w, a, w'); }
  }

  lemma StepCalm(sha: Digest, w: World, a: Action, w': World)
    requires Inv(w) && ChatOk(w) && Enabled(w, a) && a != Claim(false) && !a.Bind? && w' == Apply(sha, w, a)
    requires RowidsWithin(w.db.outbound, w.top)
    ensures Calm(w, w')
  {
    StepEvolves(sha, w, a);
    RowidsStay(sha, w, a);
    StepChat(sha, w, a);
    IdsGrow(sha, w, a, w');
    DbStep(sha, w, a);
    forall i | 0 <= i < |w'.db.outbound| && InFlight(w'.db.outbound[i].dispatchState)
      ensures i < |w.db.outbound| && InFlight(w.db.outbound[i].dispatchState)
    {
      OnlyClaimsFly(sha, w, a, i);
    }
    forall i | |w.db.outbound| <= i < |w'.db.outbound| ensures w'.db.outbound[i].guid.None? {
      NewRowIsBlank(sha, w, a, i);
    }
  }

  lemma NewRowIsBlank(sha: Digest, w: World, a: Action, i: nat)
    requires Enabled(w, a) && |w.db.outbound| <= i < |DbAfter(sha, w, a).outbound|
    ensures DbAfter(sha, w, a).outbound[i].guid.None?
  {
    if a.Request? { AcceptAppends(sha, w.db, a.job, a.now, i); }
  }

  /** The claim: the one send now in flight is marked above everything bound. */
  lemma ClaimSolo(w: World)
    requires Inv(w) && WatermarkInv(w) && SoloInv(w) && w.pc.Captured? && ClaimsAlone(w, Claim(false))
    ensures SoloInv(ApplyClaim(w))
  {
    var w', rows, id := ApplyClaim(w), w.db.outbound, w.pc.job.messageId;
    var f := Find(rows, id);
    ClaimInv(w);
    assert w'.db.outbound == rows[f := rows[f].(dispatchState := Dispatching, preRowid := w.pc.pre)];
    forall i | 0 <= i < |rows| ensures Identified(w'.ids, w'.db.outbound[i]) && BelowFlight(w', i) {
      assert Identified(w.ids, rows[i]);
      forall k | 0 <= k < |rows| && rows[k].rowid.Some? ensures rows[k].rowid.value <= w.pc.mark.value {
        assert RowidKnown(rows[k], w.pc.mark.value);
      }
    }
  }

  /** The binding: nothing is in flight any more. */
  lemma BindSolo(w: World, now: string)
    requires Inv(w) && SoloInv(w) && w.pc.Found?
    ensures SoloInv(ApplyBind(w, false, now))
  {
    var w', rows, send := ApplyBind(w, false, now), w.db.outbound, w.pc.todo[0];
    var f := Find(rows, send.job.messageId);
    assert IsInFlight(rows, send) && BelowFlight(w, f) && WellFormedRow(rows[f]);
    forall i | 0 <= i < |rows| ensures Identified(w'.ids, w'.db.outbound[i]) && BelowFlight(w', i) {
      assert Identified(w.ids, rows[i]);
    }
  }

  lemma StepSolo(sha: Digest, w: World, a: Action, w': World)
    requires Inv(w) && WatermarkInv(w) && SoloInv(w) && Enabled(w, a) && ClaimsAlone(w, a) && w' == Apply(sha, w, a)
    ensures SoloInv(w') && BindsFresh(w, a)
  {
    if w.pc.Found? { FoundIsFresh(w); }
    if a == Claim(false) {
      ClaimSolo(w);
    } else if a.Bind? {
      if a.fault { CalmKeeps(w, w'); } else { BindSolo(w, a.now); }
    } else {
      StepCalm(sha, w, a, w');
      IdsGrow(sha, w, a, w');
      CalmKeeps(w, w');
    }
  }

  lemma SoloBegins(w: World)
    requires Initial(w)
    ensures SoloInv(w)
  {
  }

  lemma {:induction false} RunSolo(sha: Digest, ws: seq<World>, acts: seq<Action>, i: nat)
    requires SoloRun(sha, ws, acts) && i < |ws|
    ensures SoloInv(ws[i])
  {
    if i == 0 {
      SoloBegins(ws[0]);
    } else {
      RunSolo(sha, ws, acts, i - 1);
      SoloAt(sha, ws, acts, i - 1);
    }
  }

  lemma SoloAt(sha: Digest, ws: seq<World>, acts: seq<Action>, i: nat)
    requires SoloRun(sha, ws, acts) && i < |acts| && SoloInv(ws[i])
    ensures SoloInv(ws[i + 1]) && BindsFresh(ws[i], acts[i])
  {
    RunWatermark(sha, ws, acts, i);
    StepSolo(sha, ws[i], acts[i], ws[i + 1]);
  }

  /** In a run whose every claim finds no send in flight and has read its watermark, every
      binding gets a guid no message holds: what the runs of the journal grammar ask for. */
  lemma SoloRunsAreFresh(sha: Digest, ws: seq<World>, acts: seq<Action>)
    requires SoloRun(sha, ws, acts)
    ensures FreshRun(sha, ws, acts)
  {
    forall i | 0 <= i < |acts| ensures BindsFresh(ws[i], acts[i]) {
      RunSolo(sha, ws, acts, i);
      SoloAt(sha, ws, acts, i);
    }
  }

  /** So in such a run the journal grammar holds without further hypothesis. */
  lemma SoloJournalGrammar(sha: Digest, ws: seq<World>, acts: seq<Action>, i: nat, k: nat) returns (story: Story)
    requires SoloRun(sha, ws, acts) && i < |ws| && k < |ws[i].db.outbound|
    ensures var row := ws[i].db.outbound[k];
            && Normal(story) && Word(ws[i].db.events, row.messageId) == Spell(story)
            && row.lastStatus == StatusIn(story) && (row.guid.Some? <==> BoundIn(story))
  {
    SoloRunsAreFresh(sha, ws, acts);
    story := JournalGrammar(sha, ws, acts, i, k);
  }
}
