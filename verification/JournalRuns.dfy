/** The journal grammar over whole runs. */
module JournalRuns {
  import opened Wrappers
  import opened Model
  import opened Fingerprint
  import opened Journal
  import opened Tables
  import opened Lifecycle
  import opened Outbound

  /** A binding that commits gets a provider guid no message holds yet. */
  ghost predicate BindsFresh(w: World, a: Action) {
    a.Bind? && !a.fault && w.pc.Found? ==> FreshGuid(w.db, w.pc.row.guid)
  }

  ghost predicate FreshRun(sha: Digest, ws: seq<World>, acts: seq<Action>) {
    IsRun(sha, ws, acts) && forall i :: 0 <= i < |acts| ==> BindsFresh(ws[i], acts[i])
  }

  predicate MailOk(w: World) {
    forall k :: 0 <= k < |w.mail| ==> Observable(w.mail[k].status)
  }

  lemma ClaimSound(w: World)
    requires Inv(w) && Sound(w.db) && w.pc.Captured?
    ensures Sound(ApplyClaim(w).db)
  {
    var i := Find(w.db.outbound, w.pc.job.messageId);
    assert RowAgrees(w.db.outbound[i], w.db.events);
    QuietRow(w.db, i, w.db.outbound[i].(dispatchState := Dispatching, preRowid := w.pc.pre));
  }

  lemma AcceptanceSound(w: World, now: string)
    requires Inv(w) && Sound(w.db) && w.pc.SenderOk?
    ensures Sound(RecordSentAcceptance(w.db, w.pc.job, now))
  {
    var i := Find(w.db.outbound, w.pc.job.messageId);
    assert RowAgrees(w.db.outbound[i], w.db.events);
    StepRow(w.db, i, w.db.outbound[i].(dispatchState := SentUnbound), JobEvent(SentEvent, w.pc.job, now), now);
  }

  lemma FailureSound(w: World, now: string)
    requires Inv(w) && Sound(w.db) && w.pc.SenderErr?
    ensures Sound(RecordFailed(w.db, w.pc.job, w.pc.reason, now))
  {
    var i := Find(w.db.outbound, w.pc.job.messageId);
    assert RowAgrees(w.db.outbound[i], w.db.events);
    StepRow(w.db, i, w.db.outbound[i].(dispatchState := DispatchState.Refused, lastStatus := Failed),
            JobEvent(FailedEvent, w.pc.job, now).(reason := Some(w.pc.reason)), now);
  }

  lemma BindSound(w: World, now: string)
    requires Inv(w) && Sound(w.db) && w.pc.Found? && w.pc.todo != []
    requires FreshGuid(w.db, w.pc.row.guid)
    ensures var row := w.pc.row;
            Sound(BindAndRecordSent(w.db, w.pc.todo[0].job.messageId, row.rowid, row.guid, row.chatId, now).0)
  {
    var row := w.pc.row;
    assert IsInFlight(w.db.outbound, w.pc.todo[0]);
    BindIsSound(w.db, w.pc.todo[0].job.messageId, row.rowid, row.guid, row.chatId, now);
  }

  /** Acceptance leaves the tables alone, or is an insertion under some keys. */
  lemma AcceptIsInsertion(sha: Digest, db: Db, job: SendJob, now: string) returns (keys: map<string, IdempotencyRow>)
    ensures var db' := Accept(sha, db, job, now).0;
            db' == db || db' == InsertSend(db.(idempotency := keys), job, now).0
  {
    keys := match job.clientRef
      case None => db.idempotency
      case Some(ref) => db.idempotency[ref := IdempotencyRow(job.messageId, Some(RequestFingerprint(sha, job)))];
  }

  lemma AcceptSound(sha: Digest, db: Db, job: SendJob, now: string)
    requires Sound(db)
    ensures Sound(Accept(sha, db, job, now).0)
  {
    var keys := AcceptIsInsertion(sha, db, job, now);
    KeysDoNotMatter(db, keys);
    InsertIsSound(db.(idempotency := keys), job, now);
  }

  lemma KeysDoNotMatter(db: Db, keys: map<string, IdempotencyRow>)
    requires Sound(db)
    ensures Sound(db.(idempotency := keys))
  {
  }

  lemma StepSound(sha: Digest, w: World, a: Action)
    requires Inv(w) && Sound(w.db) && MailOk(w) && Enabled(w, a) && BindsFresh(w, a)
    ensures Sound(Apply(sha, w, a).db) && MailOk(Apply(sha, w, a))
  {
    match a
    case Request(job, now) => AcceptSound(sha, w.db, job, now);
    case Claim(fault) => if !fault { ClaimSound(w); }
    case RecordAcceptance(fault, now) => if !fault { AcceptanceSound(w, now); }
    case RecordFailure(fault, now) => if !fault { FailureSound(w, now); }
    case Bind(fault, now) => if !fault { BindSound(w, now); }
    case Correlate(fault, now) =>
      var mail := w.mail[0];
      if !fault { AdvanceIsSound(w.db, mail.guid, mail.status, mail.timestamp, now); }
    case Inbound(event, now) => InboundIsSound(w.db, event, now);
    case MigrateStep => NothingStalled(w.db);
    case BackfillStep => KeysDoNotMatter(w.db, Backfill(w.db).idempotency);
    case _ =>
  }

  lemma InitialSound(w: World)
    requires Initial(w)
    ensures Sound(w.db) && MailOk(w)
  {
  }

  lemma SoundAt(sha: Digest, ws: seq<World>, acts: seq<Action>, i: nat)
    requires FreshRun(sha, ws, acts) && i < |acts| && Inv(ws[i]) && Sound(ws[i].db) && MailOk(ws[i])
    ensures Sound(ws[i + 1].db) && MailOk(ws[i + 1])
  {
    StepSound(sha, ws[i], acts[i]);
  }

  lemma {:induction false} RunSound(sha: Digest, ws: seq<World>, acts: seq<Action>, i: nat)
    requires FreshRun(sha, ws, acts) && i < |ws|
    ensures Inv(ws[i]) && Sound(ws[i].db) && MailOk(ws[i])
  {
    RunInv(sha, ws, acts, i);
    if i == 0 {
      InitialSound(ws[0]);
    } else {
      RunSound(sha, ws, acts, i - 1);
      SoundAt(sha, ws, acts, i - 1);
    }
  }

  /** In every run whose bindings are fresh, the events of each outbound message spell
      queued, then failed, or sent?, status sent, delivered?, read? up to where it got; and
      its row's last status and guid are exactly what that word says. */
  lemma JournalGrammar(sha: Digest, ws: seq<World>, acts: seq<Action>, i: nat, k: nat) returns (story: Story)
    requires FreshRun(sha, ws, acts) && i < |ws| && k < |ws[i].db.outbound|
    ensures var row := ws[i].db.outbound[k];
            && Normal(story) && Word(ws[i].db.events, row.messageId) == Spell(story)
            && row.lastStatus == StatusIn(story) && (row.guid.Some? <==> BoundIn(story))
  {
    RunSound(sha, ws, acts, i);
    var row := ws[i].db.outbound[k];
    assert RowAgrees(row, ws[i].db.events);
    story := PhaseSpells(Word(ws[i].db.events, row.messageId));
  }

  /** A step appends at most one journal entry and rewrites none. */
  lemma JournalGrows(sha: Digest, w: World, a: Action)
    requires Enabled(w, a)
    ensures var events, events' := w.db.events, Apply(sha, w, a).db.events;
            events' == events || (|events'| == |events| + 1 && events' == events + [events'[|events|]])
  {
    DbStep(sha, w, a);
    EventsGrow(sha, w, a);
  }

  lemma EventsGrow(sha: Digest, w: World, a: Action)
    requires Enabled(w, a)
    ensures var events, events' := w.db.events, DbAfter(sha, w, a).events;
            events' == events || (|events'| == |events| + 1 && events' == events + [events'[|events|]])
  {
  }

  lemma StepRank(sha: Digest, w: World, a: Action, k: nat)
    requires Enabled(w, a) && Sound(w.db) && Sound(Apply(sha, w, a).db) && k < |w.db.outbound|
    ensures k < |Apply(sha, w, a).db.outbound|
    ensures Rank(Apply(sha, w, a).db.outbound[k].lastStatus) >= Rank(w.db.outbound[k].lastStatus)
  {
    var w' := Apply(sha, w, a);
    StepEvolves(sha, w, a);
    JournalGrows(sha, w, a);
    RankFollows(w.db, w'.db, k);
  }

  lemma RankFollows(db: Db, db': Db, k: nat)
    requires Agrees(db) && Agrees(db') && k < |db.outbound| && k < |db'.outbound|
    requires db'.outbound[k].messageId == db.outbound[k].messageId
    requires var events, events' := db.events, db'.events;
             events' == events || (|events'| == |events| + 1 && events' == events + [events'[|events|]])
    ensures Rank(db'.outbound[k].lastStatus) >= Rank(db.outbound[k].lastStatus)
  {
  }

  /** The rank of a message's last status never decreases. */
  lemma {:induction false} RankNeverDecreases(sha: Digest, ws: seq<World>, acts: seq<Action>, i: nat, j: nat, k: nat)
    requires FreshRun(sha, ws, acts) && i <= j < |ws| && k < |ws[i].db.outbound|
    ensures k < |ws[j].db.outbound|
    ensures Rank(ws[j].db.outbound[k].lastStatus) >= Rank(ws[i].db.outbound[k].lastStatus)
    decreases j - i
  {
    if i < j {
      RunSound(sha, ws, acts, i);
      RunSound(sha, ws, acts, i + 1);
      StepRank(sha, ws[i], acts[i], k);
      RankNeverDecreases(sha, ws, acts, i + 1, j, k);
    }
  }
}
