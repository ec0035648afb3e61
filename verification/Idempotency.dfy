/** Requests under one client_ref: one message id, one dispatch. */
module Idempotency {
  import opened Wrappers
  import opened Strings
  import opened Model
  import opened Fingerprint
  import opened Journal
  import opened Tables
  import opened Lifecycle
  import opened Outbound

  /** The key maps to a row accepted under it, with that row's fingerprint. */
  ghost predicate KeyOk(sha: Digest, db: Db, ref: string)
    requires ref in db.idempotency
  {
    var key := db.idempotency[ref];
    var i := Find(db.outbound, key.messageId);
    i < |db.outbound| && db.outbound[i].clientRef == Some(ref) && JobOf(db.outbound[i]).Some?
    && key.fingerprint == Some(RequestFingerprint(sha, JobOf(db.outbound[i]).value))
  }

  /** Every row accepted under a key is the row the key maps to. */
  ghost predicate RowKeyed(db: Db, row: OutboundRow) {
    row.clientRef.Some? ==>
      row.clientRef.value in db.idempotency
      && db.idempotency[row.clientRef.value].messageId == row.messageId
  }

  ghost predicate KeysOk(sha: Digest, db: Db) {
    (forall ref :: ref in db.idempotency ==> KeyOk(sha, db, ref))
    && (forall i :: 0 <= i < |db.outbound| ==> RowKeyed(db, db.outbound[i]))
  }

  /** What an accepted request was promised still holds. */
  ghost predicate ReplyOk(sha: Digest, db: Db, r: Reply) {
    var i := Find(db.outbound, r.messageId);
    && i < |db.outbound|
    && (r.isNew ==> JobOf(db.outbound[i]) == Some(r.job))
    && match r.job.clientRef
       case None => r.isNew
       case Some(ref) =>
         ref in db.idempotency
         && db.idempotency[ref] == IdempotencyRow(r.messageId, Some(RequestFingerprint(sha, r.job)))
  }

  ghost predicate IdemInv(sha: Digest, w: World) {
    KeysOk(sha, w.db) && forall k :: 0 <= k < |w.replies| ==> ReplyOk(sha, w.db, w.replies[k])
  }

  lemma KeyStays(sha: Digest, db: Db, db': Db, ref: string)
    requires RowsEvolve(db.outbound, db'.outbound) && ref in db.idempotency && KeyOk(sha, db, ref)
    requires ref in db'.idempotency && db'.idempotency[ref] == db.idempotency[ref]
    ensures KeyOk(sha, db', ref)
  {
  }

  lemma ReplyStays(sha: Digest, db: Db, db': Db, r: Reply)
    requires RowsEvolve(db.outbound, db'.outbound) && ReplyOk(sha, db, r)
    requires r.job.clientRef.Some? ==>
               var ref := r.job.clientRef.value;
               ref in db'.idempotency && db'.idempotency[ref] == db.idempotency[ref]
    ensures ReplyOk(sha, db', r)
  {
  }

  /** A step that leaves the keys alone and adds no row keeps everything. */
  lemma QuietStep(sha: Digest, w: World, w': World)
    requires IdemInv(sha, w) && w'.replies == w.replies && w'.db.idempotency == w.db.idempotency
    requires RowsEvolve(w.db.outbound, w'.db.outbound) && |w'.db.outbound| == |w.db.outbound|
    ensures IdemInv(sha, w')
  {
    forall ref | ref in w'.db.idempotency ensures KeyOk(sha, w'.db, ref) {
      KeyStays(sha, w.db, w'.db, ref);
    }
    forall i | 0 <= i < |w'.db.outbound| ensures RowKeyed(w'.db, w'.db.outbound[i]) {
      assert RowKeyed(w.db, w.db.outbound[i]) && Evolves(w.db.outbound[i], w'.db.outbound[i]);
    }
    forall k | 0 <= k < |w'.replies| ensures ReplyOk(sha, w'.db, w'.replies[k]) {
      ReplyStays(sha, w.db, w'.db, w.replies[k]);
    }
  }

  /** On a database created by this code every key is already mapped, so reopening adds none. */
  lemma NothingToBackfill(sha: Digest, db: Db)
    requires KeysOk(sha, db)
    ensures Backfill(db) == db
  {
    forall ref | ref in ClientRefs(db.outbound) ensures ref in db.idempotency {
      var i :| 0 <= i < |db.outbound| && db.outbound[i].clientRef == Some(ref);
      assert RowKeyed(db, db.outbound[i]);
    }
    assert Backfill(db).idempotency == db.idempotency;
  }

  function WithKey(sha: Digest, db: Db, job: SendJob): map<string, IdempotencyRow> {
    match job.clientRef
    case None => db.idempotency
    case Some(ref) => db.idempotency[ref := IdempotencyRow(job.messageId, Some(RequestFingerprint(sha, job)))]
  }

  /** `db'` is `db` with a new message under a free key, or under none. */
  predicate Inserted(sha: Digest, db: Db, db': Db, job: SendJob, now: string) {
    && Find(db.outbound, job.messageId) == |db.outbound|
    && db'.outbound == db.outbound + [NewRow(job, now)]
    && (job.clientRef.Some? ==> !Fingerprinted(db, job.clientRef.value))
    && db'.idempotency == WithKey(sha, db, job)
  }

  /** What the acceptance of a new message does to the tables. */
  lemma AcceptInserts(sha: Digest, db: Db, job: SendJob, now: string)
    requires Accept(sha, db, job, now).1.Success? && Accept(sha, db, job, now).1.value.isNew
    ensures Inserted(sha, db, Accept(sha, db, job, now).0, job, now)
    ensures Accept(sha, db, job, now).1.value.messageId == job.messageId
  {
  }

  lemma KeysArePrinted(sha: Digest, db: Db, ref: string)
    requires KeysOk(sha, db)
    ensures ref in db.idempotency ==> Fingerprinted(db, ref)
  {
  }

  lemma InsertedRow(sha: Digest, db: Db, db': Db, job: SendJob, now: string)
    requires Inserted(sha, db, db', job, now)
    ensures RowsEvolve(db.outbound, db'.outbound)
    ensures Find(db'.outbound, job.messageId) == |db.outbound|
    ensures db'.outbound[|db.outbound|].clientRef == job.clientRef
    ensures JobOf(db'.outbound[|db.outbound|]) == Some(job)
  {
    FindLast(db.outbound, NewRow(job, now));
    NewRowDecodes(job, now);
  }

  lemma InsertKeepsKeys(sha: Digest, db: Db, db': Db, job: SendJob, now: string)
    requires KeysOk(sha, db) && Inserted(sha, db, db', job, now)
    ensures forall ref :: ref in db'.idempotency ==> KeyOk(sha, db', ref)
  {
    InsertedRow(sha, db, db', job, now);
    forall ref | ref in db'.idempotency ensures KeyOk(sha, db', ref) {
      if job.clientRef != Some(ref) {
        assert KeyOk(sha, db, ref);
        KeyStays(sha, db, db', ref);
      }
    }
  }

  lemma InsertKeepsRows(sha: Digest, db: Db, db': Db, job: SendJob, now: string)
    requires KeysOk(sha, db) && Inserted(sha, db, db', job, now)
    ensures forall i :: 0 <= i < |db'.outbound| ==> RowKeyed(db', db'.outbound[i])
  {
  }

  lemma InsertKeepsReplies(sha: Digest, db: Db, db': Db, job: SendJob, now: string, r: Reply)
    requires KeysOk(sha, db) && Inserted(sha, db, db', job, now)
    requires ReplyOk(sha, db, r) || r == Reply(job, job.messageId, true)
    ensures ReplyOk(sha, db', r)
  {
    InsertedRow(sha, db, db', job, now);
    if job.clientRef.Some? { KeysArePrinted(sha, db, job.clientRef.value); }
    if ReplyOk(sha, db, r) {
      ReplyStays(sha, db, db', r);
    }
  }

  lemma InsertKeeps(sha: Digest, w: World, db': Db, job: SendJob, now: string)
    requires IdemInv(sha, w) && Inserted(sha, w.db, db', job, now)
    ensures IdemInv(sha, w.(db := db', replies := w.replies + [Reply(job, job.messageId, true)]))
  {
    InsertKeepsKeys(sha, w.db, db', job, now);
    InsertKeepsRows(sha, w.db, db', job, now);
    var replies := w.replies + [Reply(job, job.messageId, true)];
    forall k | 0 <= k < |replies| ensures ReplyOk(sha, db', replies[k]) {
      if k < |w.replies| { assert ReplyOk(sha, w.db, w.replies[k]); }
      InsertKeepsReplies(sha, w.db, db', job, now, replies[k]);
    }
  }

  lemma FindLast(rows: seq<OutboundRow>, row: OutboundRow)
    requires Find(rows, row.messageId) == |rows|
    ensures Find(rows + [row], row.messageId) == |rows|
  {
    assert (rows + [row])[|rows|] == row;
    assert forall i :: 0 <= i < |rows| ==> (rows + [row])[i] == rows[i];
  }

  /** A replay is answered from the key and changes no table. */
  lemma ReplayKeeps(sha: Digest, w: World, job: SendJob, now: string)
    requires IdemInv(sha, w) && Accept(sha, w.db, job, now).1.Success?
    requires !Accept(sha, w.db, job, now).1.value.isNew
    ensures ApplyRequest(sha, w, job, now).db == w.db
    ensures IdemInv(sha, ApplyRequest(sha, w, job, now))
  {
    var w' := ApplyRequest(sha, w, job, now);
    assert KeyOk(sha, w.db, job.clientRef.value);
    forall k | 0 <= k < |w'.replies| ensures ReplyOk(sha, w'.db, w'.replies[k]) {
      if k < |w.replies| { assert ReplyOk(sha, w.db, w.replies[k]) && w'.replies[k] == w.replies[k]; }
    }
  }

  /** Only a request or a backfill touches the keys, the replies or the number of rows. */
  lemma OthersAreQuiet(sha: Digest, w: World, a: Action)
    requires Enabled(w, a) && !a.Request? && !a.BackfillStep?
    ensures var w' := Apply(sha, w, a);
            w'.db.idempotency == w.db.idempotency && w'.replies == w.replies
            && |w'.db.outbound| == |w.db.outbound|
  {
    DbStep(sha, w, a);
    TablesAreQuiet(sha, w, a);
  }

  lemma TablesAreQuiet(sha: Digest, w: World, a: Action)
    requires Enabled(w, a) && !a.Request? && !a.BackfillStep?
    ensures var db' := DbAfter(sha, w, a); db'.idempotency == w.db.idempotency && |db'.outbound| == |w.db.outbound|
  {
  }

  lemma StepIdem(sha: Digest, w: World, a: Action)
    requires IdemInv(sha, w) && Enabled(w, a)
    ensures IdemInv(sha, Apply(sha, w, a))
  {
    if a.Request? {
      var r := Accept(sha, w.db, a.job, a.now).1;
      if r.Success? {
        if r.value.isNew {
          AcceptInserts(sha, w.db, a.job, a.now);
          InsertKeeps(sha, w, Accept(sha, w.db, a.job, a.now).0, a.job, a.now);
        } else {
          ReplayKeeps(sha, w, a.job, a.now);
        }
      }
    } else if a.BackfillStep? {
      NothingToBackfill(sha, w.db);
    } else {
      StepEvolves(sha, w, a);
      OthersAreQuiet(sha, w, a);
      QuietStep(sha, w, Apply(sha, w, a));
    }
  }

  lemma {:induction false} RunIdem(sha: Digest, ws: seq<World>, acts: seq<Action>, i: nat)
    requires IsRun(sha, ws, acts) && i < |ws|
    ensures Inv(ws[i]) && IdemInv(sha, ws[i])
  {
    RunInv(sha, ws, acts, i);
    if i > 0 {
      RunIdem(sha, ws, acts, i - 1);
      StepIdem(sha, ws[i - 1], acts[i - 1]);
    }
  }

  /** In every run, all requests accepted under one client_ref were answered with the same
      message id and had the same fingerprint; that message is the only row under the
      client_ref, and the sender was invoked for it at most once. */
  lemma OneMessagePerClientRef(sha: Digest, ws: seq<World>, acts: seq<Action>, i: nat, ref: string, k: nat, l: nat)
    requires IsRun(sha, ws, acts) && i < |ws| && k < |ws[i].replies| && l < |ws[i].replies|
    requires ws[i].replies[k].job.clientRef == Some(ref) == ws[i].replies[l].job.clientRef
    ensures var a, b := ws[i].replies[k], ws[i].replies[l];
            && a.messageId == b.messageId
            && RequestFingerprint(sha, a.job) == RequestFingerprint(sha, b.job)
            && (Addressable(a.job) && Addressable(b.job) && !Collides(sha, a.job, b.job) ==> SameRequest(a.job, b.job))
            && Count(ws[i].sends, a.messageId) <= 1
            && forall j :: 0 <= j < |ws[i].db.outbound| && ws[i].db.outbound[j].clientRef == Some(ref) ==>
                             ws[i].db.outbound[j].messageId == a.messageId
  {
    var w := ws[i];
    RunIdem(sha, ws, acts, i);
    var a, b := w.replies[k], w.replies[l];
    assert ReplyOk(sha, w.db, a) && ReplyOk(sha, w.db, b);
    assert Count(w.sends, a.messageId) <= 1;
    if Addressable(a.job) && Addressable(b.job) && !Collides(sha, a.job, b.job) {
      FingerprintExactly(sha, a.job, b.job);
    }
    forall j | 0 <= j < |w.db.outbound| && w.db.outbound[j].clientRef == Some(ref)
      ensures w.db.outbound[j].messageId == a.messageId
    {
      assert RowKeyed(w.db, w.db.outbound[j]);
    }
  }

  /** A request under a known key: short of a digest collision it is accepted, as a replay of
      the original message, exactly when kind, target, protocol and text are those of the
      original; either way no table changes. */
  lemma ReplayExactly(sha: Digest, db: Db, job: SendJob, ref: string, now: string)
    requires KeysOk(sha, db) && job.clientRef == Some(ref) && ref in db.idempotency
    ensures KeyOk(sha, db, ref)
    ensures var row := db.outbound[Find(db.outbound, db.idempotency[ref].messageId)];
            var (db', r) := Accept(sha, db, job, now);
            && db' == db
            && (r == Failure(Conflict(ref))
                || r == Success(AcceptedSend(row.messageId, row.lastStatus, false, None, true)))
            && (Addressable(job) && Addressable(JobOf(row).value) && !Collides(sha, job, JobOf(row).value) ==>
                  (r.Success? <==> SameRequest(job, JobOf(row).value)))
  {
    assert KeyOk(sha, db, ref);
    var row := db.outbound[Find(db.outbound, db.idempotency[ref].messageId)];
    if Addressable(job) && Addressable(JobOf(row).value) && !Collides(sha, job, JobOf(row).value) {
      FingerprintExactly(sha, job, JobOf(row).value);
    }
  }

  /** On any database, even one whose key predates fingerprints, the first request accepted
      under a client_ref fixes its meaning: a repetition under any new message id is
      answered with the same message and inserts nothing. */
  lemma FirstRequestFixesKey(sha: Digest, db: Db, job: SendJob, again: SendJob, ref: string, now: string, later: string)
    requires job.clientRef == Some(ref) == again.clientRef && SameRequest(job, again)
    requires !Fingerprinted(db, ref) && !IdTaken(db, ref, job.messageId)
    requires Find(db.outbound, job.messageId) == |db.outbound|
    ensures var (db', r) := Accept(sha, db, job, now);
            && r.Success? && r.value.isNew && r.value.messageId == job.messageId
            && Accept(sha, db', again, later)
               == (db', Success(AcceptedSend(job.messageId, Queued, false, None, true)))
  {
    FindLast(db.outbound, NewRow(job, now));
    var db' := Accept(sha, db, job, now).0;
    assert db'.outbound[|db.outbound|] == NewRow(job, now);
    assert Fields(job) == Fields(again);
  }
}
