/** A send never resolves to a chat.db row that existed when its watermark was read, nor is it
    ever bound to one. */
module Watermark {
  import opened Wrappers
  import opened Model
  import opened Fingerprint
  import opened Tables
  import opened Lifecycle
  import opened Resolver
  import opened Outbound

  /** No row now in chat.db lies above `pre` and at or below `mark`. */
  ghost predicate Separates(chat: map<int, string>, pre: int, mark: int) {
    forall c :: c in chat && c > pre ==> c > mark
  }

  predicate RowidKnown(row: OutboundRow, top: int) {
    row.rowid.Some? ==> row.rowid.value <= top && row.guid.Some?
  }

  ghost predicate MarkOk(w: World, id: string)
    requires id in w.marks
  {
    var i := Find(w.db.outbound, id);
    w.marks[id] <= w.top && i < |w.db.outbound| && w.db.outbound[i].dispatchState != Waiting
    && Separates(w.chat, w.db.outbound[i].preRowid, w.marks[id])
    && (w.db.outbound[i].rowid.Some? ==> w.db.outbound[i].rowid.value > w.marks[id])
  }

  ghost predicate RowidsWithin(rows: seq<OutboundRow>, top: int) {
    forall i :: 0 <= i < |rows| ==> RowidKnown(rows[i], top)
  }

  ghost predicate MarksOk(w: World) {
    forall id :: id in w.marks ==> MarkOk(w, id)
  }

  ghost predicate CaptureOk(w: World) {
    w.pc.Captured? && w.pc.mark.Some? ==>
      w.pc.mark.value <= w.top && Separates(w.chat, w.pc.pre, w.pc.mark.value)
      && RowidsWithin(w.db.outbound, w.pc.mark.value)
  }

  ghost predicate FoundOk(w: World) {
    w.pc.Found? ==>
      w.pc.row.rowid <= w.top
      && (w.pc.todo != [] && w.pc.todo[0].job.messageId in w.marks ==>
            w.pc.row.rowid > w.marks[w.pc.todo[0].job.messageId])
  }

  ghost predicate WatermarkInv(w: World) {
    && ChatOk(w) && RowidsWithin(w.db.outbound, w.top) && MarksOk(w) && CaptureOk(w) && FoundOk(w)
  }

  lemma MarkStays(w: World, w': World, id: string)
    requires id in w.marks && id in w'.marks && w'.marks[id] == w.marks[id] && MarkOk(w, id)
    requires RowsEvolve(w.db.outbound, w'.db.outbound) && w.top <= w'.top
    requires var i := Find(w.db.outbound, id); w'.db.outbound[i].rowid == w.db.outbound[i].rowid
    requires forall c :: c in w'.chat ==> c in w.chat || c > w.top
    ensures MarkOk(w', id)
  {
  }

  /** ROWIDs never come back into use. */
  ghost predicate ChatMoves(w: World, w': World) {
    w.top <= w'.top && forall c :: c in w'.chat ==> c in w.chat || w.top < c <= w'.top
  }

  lemma MarksStay(w: World, w': World)
    requires MarksOk(w) && w'.marks == w.marks
    requires RowsEvolve(w.db.outbound, w'.db.outbound) && SameRowids(w.db.outbound, w'.db.outbound) && ChatMoves(w, w')
    ensures MarksOk(w')
  {
    forall id | id in w'.marks ensures MarkOk(w', id) { MarkStays(w, w', id); }
  }

  /** Rows keep their ROWID and guid, and new rows have no ROWID. */
  predicate SameRowids(rows: seq<OutboundRow>, rows': seq<OutboundRow>) {
    forall i :: 0 <= i < |rows'| ==>
      if i < |rows| then rows'[i].rowid == rows[i].rowid && rows'[i].guid == rows[i].guid else rows'[i].rowid.None?
  }

  lemma AcceptRowids(sha: Digest, db: Db, job: SendJob, now: string)
    ensures SameRowids(db.outbound, Accept(sha, db, job, now).0.outbound)
  {
  }

  lemma RecordRowids(db: Db, job: SendJob, reason: string, now: string)
    ensures SameRowids(db.outbound, RecordSentAcceptance(db, job, now).outbound)
    ensures SameRowids(db.outbound, RecordFailed(db, job, reason, now).outbound)
  {
  }

  lemma AdvanceRowids(db: Db, guid: string, status: Status, timestamp: string, now: string)
    ensures SameRowids(db.outbound, AdvanceStatus(db, guid, status, timestamp, now).0.outbound)
  {
  }

  lemma DbRowids(sha: Digest, w: World, a: Action)
    requires Enabled(w, a) && !a.Bind?
    ensures SameRowids(w.db.outbound, DbAfter(sha, w, a).outbound)
  {
    match a
    case Request(job, now) => AcceptRowids(sha, w.db, job, now);
    case RecordAcceptance(_, now) => RecordRowids(w.db, w.pc.job, "", now);
    case RecordFailure(_, now) => RecordRowids(w.db, w.pc.job, w.pc.reason, now);
    case Correlate(_, now) => AdvanceRowids(w.db, w.mail[0].guid, w.mail[0].status, w.mail[0].timestamp, now);
    case _ =>
  }

  /** Outside a binding, rows get no ROWID. */
  lemma RowidsStay(sha: Digest, w: World, a: Action)
    requires Enabled(w, a) && !a.Bind?
    ensures SameRowids(w.db.outbound, Apply(sha, w, a).db.outbound)
  {
    DbStep(sha, w, a);
    DbRowids(sha, w, a);
  }

  lemma MarkedLeft(w: World, id: string)
    requires MarksOk(w)
    ensures id in w.marks ==> LeftQueue(w.db.outbound, id)
  {
  }

  lemma ClaimMarks(sha: Digest, w: World)
    requires Inv(w) && WatermarkInv(w) && w.pc.Captured?
    ensures WatermarkInv(ApplyClaim(w))
  {
    var w' := ApplyClaim(w);
    var id := w.pc.job.messageId;
    StepEvolves(sha, w, Claim(false));
    RowidsStay(sha, w, Claim(false));
    ClaimInv(w);
    MarkedLeft(w, id);
    FindSame(w.db.outbound, w'.db.outbound, id);
    forall other | other in w'.marks ensures MarkOk(w', other) {
      if other != id { MarkStays(w, w', other); }
    }
  }

  lemma BindKnown(w: World, fault: bool, now: string)
    requires RowidsWithin(w.db.outbound, w.top) && FoundOk(w) && w.pc.Found? && w.pc.todo != []
    ensures RowidsWithin(ApplyBind(w, fault, now).db.outbound, w.top)
  {
  }

  lemma BoundAbove(w: World, fault: bool, now: string)
    requires Inv(w) && WatermarkInv(w) && w.pc.Found? && w.pc.todo[0].job.messageId in w.marks
    ensures MarkOk(ApplyBind(w, fault, now), w.pc.todo[0].job.messageId)
  {
    var id := w.pc.todo[0].job.messageId;
    assert MarkOk(w, id) && IsInFlight(w.db.outbound, w.pc.todo[0]);
    FindSame(w.db.outbound, ApplyBind(w, fault, now).db.outbound, id);
  }

  lemma BoundOthers(w: World, fault: bool, now: string, other: string)
    requires w.pc.Found? && w.pc.todo != [] && other in w.marks && MarkOk(w, other)
    requires other != w.pc.todo[0].job.messageId
    ensures MarkOk(ApplyBind(w, fault, now), other)
  {
    var id := w.pc.todo[0].job.messageId;
    BindEvolves(w.db, id, w.pc.row.rowid, w.pc.row.guid, w.pc.row.chatId, now);
    MarkStays(w, ApplyBind(w, fault, now), other);
  }

  /** A binding of a marked send keeps it above its mark. */
  lemma BindMarks(w: World, fault: bool, now: string)
    requires Inv(w) && WatermarkInv(w) && w.pc.Found?
    ensures MarksOk(ApplyBind(w, fault, now))
  {
    forall id | id in w.marks ensures MarkOk(ApplyBind(w, fault, now), id) {
      if id == w.pc.todo[0].job.messageId { BoundAbove(w, fault, now); } else { BoundOthers(w, fault, now, id); }
    }
  }

  lemma ResolveSeparates(sha: Digest, w: World, a: Action)
    requires Inv(w) && WatermarkInv(w) && a.Resolve? && Enabled(w, a)
    ensures FoundOk(Apply(sha, w, a))
  {
  }

  lemma ChatStays(sha: Digest, w: World, a: Action, w': World)
    requires Enabled(w, a) && w' == Apply(sha, w, a) && !a.ChatInsert? && !a.ChatDelete?
    ensures w'.chat == w.chat && w'.ids == w.ids && w'.top == w.top
  {
  }

  lemma PcMoves(sha: Digest, w: World, a: Action, w': World)
    requires Enabled(w, a) && w' == Apply(sha, w, a)
    ensures !a.Claim? ==> w'.marks == w.marks
    ensures w'.pc.Captured? ==> w'.pc == w.pc || a.Capture?
    ensures w'.pc.Found? ==> w'.pc == w.pc || a.Resolve?
  {
  }

  lemma StepChat(sha: Digest, w: World, a: Action)
    requires Enabled(w, a) && ChatOk(w)
    ensures var w' := Apply(sha, w, a);
            ChatMoves(w, w') && ChatOk(w')
            && (!a.Claim? ==> w'.marks == w.marks)
            && (w'.pc.Captured? ==> w'.pc == w.pc || a.Capture?)
            && (w'.pc.Found? ==> w'.pc == w.pc || a.Resolve?)
  {
    PcMoves(sha, w, a, Apply(sha, w, a));
    if !a.ChatInsert? && !a.ChatDelete? { ChatStays(sha, w, a, Apply(sha, w, a)); }
  }

  lemma StepWatermark(sha: Digest, w: World, a: Action)
    requires Inv(w) && WatermarkInv(w) && Enabled(w, a)
    ensures WatermarkInv(Apply(sha, w, a))
  {
    if a == Claim(false) {
      ClaimMarks(sha, w);
    } else {
      var w' := Apply(sha, w, a);
      StepChat(sha, w, a);
      StepEvolves(sha, w, a);
      if a.Bind? {
        BindKnown(w, a.fault, a.now);
        BindMarks(w, a.fault, a.now);
      } else {
        RowidsStay(sha, w, a);
        MarksStay(w, w');
      }
      if a.Resolve? { ResolveSeparates(sha, w, a); }
    }
  }

  lemma InitialWatermark(w: World)
    requires Initial(w)
    ensures WatermarkInv(w)
  {
  }

  lemma {:induction false} RunWatermark(sha: Digest, ws: seq<World>, acts: seq<Action>, i: nat)
    requires IsRun(sha, ws, acts) && i < |ws|
    ensures Inv(ws[i]) && WatermarkInv(ws[i])
  {
    RunInv(sha, ws, acts, i);
    if i == 0 {
      InitialWatermark(ws[0]);
    } else {
      RunWatermark(sha, ws, acts, i - 1);
      StepWatermark(sha, ws[i - 1], acts[i - 1]);
    }
  }

  lemma ClaimKeepsMark(w: World, id: string)
    requires Inv(w) && MarksOk(w) && w.pc.Captured? && id in w.marks
    ensures id in ApplyClaim(w).marks && ApplyClaim(w).marks[id] == w.marks[id]
  {
    MarkedLeft(w, id);
  }

  lemma StepKeepsMark(sha: Digest, w: World, a: Action, id: string)
    requires Inv(w) && WatermarkInv(w) && Enabled(w, a) && id in w.marks
    ensures id in Apply(sha, w, a).marks && Apply(sha, w, a).marks[id] == w.marks[id]
  {
    if a == Claim(false) { ClaimKeepsMark(w, id); } else { PcMoves(sha, w, a, Apply(sha, w, a)); }
  }

  lemma {:induction false} MarkPersists(sha: Digest, ws: seq<World>, acts: seq<Action>, i: nat, j: nat, id: string)
    requires IsRun(sha, ws, acts) && i <= j < |ws| && id in ws[i].marks
    ensures id in ws[j].marks && ws[j].marks[id] == ws[i].marks[id]
    decreases j - i
  {
    if i < j {
      RunWatermark(sha, ws, acts, i);
      StepKeepsMark(sha, ws[i], acts[i], id);
      MarkPersists(sha, ws, acts, i + 1, j, id);
    }
  }

  /** Send B is claimed at step `j`, after its watermark was read successfully; send A holds
      chat.db row `ra` at that time. Whatever row the resolver returns for B at any later
      time has a greater ROWID, so B never binds A's provider row. */
  lemma LaterSendsResolveAbove(sha: Digest, ws: seq<World>, acts: seq<Action>, j: nat, k: nat, a: nat, ra: int)
    requires IsRun(sha, ws, acts) && j < k < |ws|
    requires acts[j] == Claim(false) && ws[j].pc.Captured? && ws[j].pc.mark.Some?
    requires a < |ws[j].db.outbound| && ws[j].db.outbound[a].rowid == Some(ra)
    requires ws[k].pc.Found? && ws[k].pc.todo != []
    requires ws[k].pc.todo[0].job.messageId == ws[j].pc.job.messageId
    ensures ws[k].pc.row.rowid > ra
  {
    var id := ws[j].pc.job.messageId;
    MarkAbove(sha, ws, acts, j, a, ra);
    MarkPersists(sha, ws, acts, j + 1, k, id);
    RunWatermark(sha, ws, acts, k);
  }

  /** So in every later state B's row, once it holds a chat.db row, holds one above A's. */
  lemma LaterSendsBindAbove(sha: Digest, ws: seq<World>, acts: seq<Action>, j: nat, k: nat, a: nat, ra: int, b: nat)
    requires IsRun(sha, ws, acts) && j < k < |ws|
    requires acts[j] == Claim(false) && ws[j].pc.Captured? && ws[j].pc.mark.Some?
    requires a < |ws[j].db.outbound| && ws[j].db.outbound[a].rowid == Some(ra)
    requires b < |ws[k].db.outbound| && ws[k].db.outbound[b].messageId == ws[j].pc.job.messageId
    ensures ws[k].db.outbound[b].rowid.Some? ==> ws[k].db.outbound[b].rowid.value > ra
  {
    var id := ws[j].pc.job.messageId;
    MarkAbove(sha, ws, acts, j, a, ra);
    MarkPersists(sha, ws, acts, j + 1, k, id);
    RunWatermark(sha, ws, acts, k);
    assert MarkOk(ws[k], id);
    FindAt(ws[k].db.outbound, b);
  }

  /** A claim whose watermark was read marks its send above everything bound by then. */
  lemma MarkAbove(sha: Digest, ws: seq<World>, acts: seq<Action>, j: nat, a: nat, ra: int)
    requires IsRun(sha, ws, acts) && j < |acts|
    requires acts[j] == Claim(false) && ws[j].pc.Captured? && ws[j].pc.mark.Some?
    requires a < |ws[j].db.outbound| && ws[j].db.outbound[a].rowid == Some(ra)
    ensures var id := ws[j].pc.job.messageId; id in ws[j + 1].marks && ws[j + 1].marks[id] >= ra
  {
    RunWatermark(sha, ws, acts, j);
    ClaimInv(ws[j]);
    assert ws[j + 1] == ApplyClaim(ws[j]);
    assert RowidKnown(ws[j].db.outbound[a], ws[j].pc.mark.value);
  }
}
