/** What opening a database of an earlier version does to its rows and keys. */
module Reopening {
  import opened Wrappers
  import opened Strings
  import opened Model
  import opened Tables
  import opened Lifecycle
  import opened Outbound

  /** A send an earlier version gave up on, with its command still at hand. */
  predicate GivenUp(row: OutboundRow) {
    row.dispatchState == Stalled && row.guid.None? && ToSend(row).Some?
  }

  lemma {:induction false} DecodesIn(rows: seq<OutboundRow>, row: OutboundRow)
    requires row in rows && ToSend(row).Some?
    ensures ToSend(row).value in DecodeSends(rows)
  {
    if rows[0] != row {
      assert row in rows[1..];
      DecodesIn(rows[1..], row);
    }
  }

  /** After reopening, recovery takes it up again: its command is among the sends to resolve. */
  lemma GivenUpIsRecovered(db: Db, i: nat)
    requires DistinctIds(db.outbound) && i < |db.outbound| && GivenUp(db.outbound[i])
    ensures exists send :: send in RecoverableSends(MigrateUnknown(db)) && Some(send.job) == JobOf(db.outbound[i])
    ensures MigrateUnknown(db).outbound[i].lastStatus == Sent
  {
    var rows := MigrateUnknown(db).outbound;
    assert forall k :: 0 <= k < |rows| ==> rows[k].messageId == db.outbound[k].messageId;
    InFlightRowsExactly(rows);
    assert rows[i] in InFlightRows(rows);
    DecodesIn(InFlightRows(rows), rows[i]);
    assert ToSend(rows[i]).value.job == ToSend(db.outbound[i]).value.job;
  }

  /** Every other row stays as it is. */
  lemma OthersUntouched(db: Db, i: nat)
    requires i < |db.outbound|
    requires db.outbound[i].dispatchState != Stalled || db.outbound[i].guid.Some? || db.outbound[i].text.None?
    ensures |MigrateUnknown(db).outbound| == |db.outbound| && MigrateUnknown(db).outbound[i] == db.outbound[i]
  {
  }

  /** The least message id accepted under a client_ref, if there is any. */
  lemma {:induction false} MinIdExactly(rows: seq<OutboundRow>, ref: string)
    ensures MinId(rows, ref).Some? <==> exists i :: 0 <= i < |rows| && rows[i].clientRef == Some(ref)
    ensures MinId(rows, ref).Some? ==>
              && (exists i :: 0 <= i < |rows| && rows[i].clientRef == Some(ref) && rows[i].messageId == MinId(rows, ref).value)
              && forall i :: 0 <= i < |rows| && rows[i].clientRef == Some(ref) ==> Le(MinId(rows, ref).value, rows[i].messageId)
  {
    if rows != [] {
      var rest := rows[1..];
      MinIdExactly(rest, ref);
      assert forall i :: 0 < i < |rows| ==> rows[i] == rest[i - 1];
      assert forall i :: 0 <= i < |rest| ==> rest[i] == rows[i + 1];
      LeReflexive(rows[0].messageId);
      if MinId(rest, ref).Some? && rows[0].clientRef == Some(ref) {
        var least := MinId(rest, ref).value;
        LeTotal(least, rows[0].messageId);
        forall i | 0 < i < |rows| && rows[i].clientRef == Some(ref) ensures Le(MinId(rows, ref).value, rows[i].messageId) {
          assert Le(least, rest[i - 1].messageId);
          if !Le(least, rows[0].messageId) { LeTransitive(rows[0].messageId, least, rows[i].messageId); }
        }
      }
    }
  }

  /** A client_ref that no key maps yet gets one, to the least of its message ids and without a
      fingerprint, unless another key has that id; every key there was stays. */
  lemma BackfillExactly(db: Db, ref: string, i: nat, id: string)
    requires i < |db.outbound| && db.outbound[i].clientRef == Some(ref) && MinId(db.outbound, ref) == Some(id)
    ensures Backfill(db).outbound == db.outbound && Backfill(db).events == db.events
    ensures forall key :: key in db.idempotency ==>
              key in Backfill(db).idempotency && Backfill(db).idempotency[key] == db.idempotency[key]
    ensures ref !in db.idempotency ==>
              if exists other :: other in db.idempotency && other != ref && db.idempotency[other].messageId == id
              then ref !in Backfill(db).idempotency
              else ref in Backfill(db).idempotency && Backfill(db).idempotency[ref] == IdempotencyRow(id, None)
  {
    assert ref in ClientRefs(db.outbound);
    assert IdTaken(db, ref, id) <==>
             exists other :: other in db.idempotency && other != ref && db.idempotency[other].messageId == id;
  }
}
