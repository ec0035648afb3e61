/** A run in which two sends are bound to one provider guid: a send claimed before a crash and
    never sent is resolved, after the restart, to the row of a later send to the same target. */
module SharedGuid {
  import opened Wrappers
  import opened Strings
  import opened Model
  import opened Fingerprint
  import opened Journal
  import opened Tables
  import opened Lifecycle
  import opened Resolver
  import opened Outbound
  import opened JournalRuns

  /** Two jobs to one target, the chat.db row of the second, and a row that was there before. */
  datatype Case = Case(installation: string, a: SendJob, b: SendJob, row: CandidateRow, before: string, now: string)

  predicate Fits(c: Case) {
    c.a.clientRef.None? && c.b.clientRef.None? && c.a.messageId != c.b.messageId && c.a.target == c.b.target
    && c.row.rowid == 11 && c.row.guid != c.before && c.row.MatchesTarget(c.a.target)
  }

  /** One of them. */
  ghost function Example(): (c: Case)
    ensures Fits(c)
  {
    var rest := Split("", ',');
    assert "x"[1..] == "" && rest == [""] && rest[1..] == [] && ['x'] + rest[0] == "x";
    assert Split("x", ',') == ["x"];
    assert "old"[0] == 'o' && "new"[0] == 'n' && "a"[0] == 'a' && "b"[0] == 'b';
    var a := SendJob("a", Handle("x"), "hi", "imessage", None);
    var row := CandidateRow(11, "new", Some("yo"), None, Some("x"), None);
    Case("i", a, a.(messageId := "b", text := "yo"), row, "old", "t")
  }

  type Fitting = c: Case | Fits(c) ghost witness Example()

  function Found11(c: Case): ResolvedRow {
    c.row.Resolved(c.a.target)
  }

  // The tables along the run

  function Empty(c: Case): Db {
    Db(c.installation, [], map[], [])
  }

  function ClaimedRow(job: SendJob, now: string): OutboundRow {
    NewRow(job, now).(dispatchState := Dispatching, preRowid := 10)
  }

  function AcceptedA(c: Case): Db {
    InsertSend(Empty(c), c.a, c.now).0
  }

  function ClaimedA(c: Case): Db {
    AcceptedA(c).(outbound := [ClaimedRow(c.a, c.now)])
  }

  function AcceptedB(c: Case): Db {
    InsertSend(ClaimedA(c), c.b, c.now).0
  }

  function ClaimedB(c: Case): Db {
    AcceptedB(c).(outbound := [ClaimedRow(c.a, c.now), ClaimedRow(c.b, c.now)])
  }

  function SentB(c: Case): Db {
    RecordSentAcceptance(ClaimedB(c), c.b, c.now)
  }

  function BoundTo(db: Db, job: SendJob, c: Case): Db {
    BindAndRecordSent(db, job.messageId, 11, c.row.guid, Found11(c).chatId, c.now).0
  }

  lemma ClaimRows(c: Fitting)
    ensures MarkDispatching(AcceptedA(c), c.a.messageId, 10) == (ClaimedA(c), true)
    ensures MarkDispatching(AcceptedB(c), c.b.messageId, 10) == (ClaimedB(c), true)
  {
    AcceptedRows(c);
    var a, b, x, y := NewRow(c.a, c.now), NewRow(c.b, c.now), ClaimedRow(c.a, c.now), ClaimedRow(c.b, c.now);
    assert [a][0 := x] == [x];
    assert Find([x, b], c.b.messageId) == 1 && [x, b][1 := y] == [x, y];
  }

  lemma AcceptedRows(c: Fitting)
    ensures AcceptedA(c).outbound == [NewRow(c.a, c.now)]
    ensures AcceptedB(c).outbound == [ClaimedRow(c.a, c.now), NewRow(c.b, c.now)]
  {
    assert Find(ClaimedA(c).outbound, c.b.messageId) == 1;
  }

  lemma QueueReads(c: Fitting)
    ensures NextQueued(AcceptedA(c)) == Some(DurableSend(c.a, 0, Waiting))
    ensures NextQueued(AcceptedB(c)) == Some(DurableSend(c.b, 0, Waiting))
  {
    NewRowDecodes(c.a, c.now);
    NewRowDecodes(c.b, c.now);
  }

  lemma SentRows(c: Fitting)
    ensures SentB(c).outbound == [ClaimedRow(c.a, c.now), ClaimedRow(c.b, c.now).(dispatchState := SentUnbound)]
  {
  }

  lemma BoundRows(c: Fitting)
    ensures var rows := BoundTo(SentB(c), c.b, c).outbound;
            && |rows| == 2 && rows[0] == ClaimedRow(c.a, c.now)
            && rows[1].guid == Some(c.row.guid) && rows[1].dispatchState == Bound && rows[1].lastStatus == Sent
  {
    SentRows(c);
  }

  lemma OneInFlight(x: OutboundRow, y: OutboundRow, send: DurableSend)
    requires InFlight(x.dispatchState) && !InFlight(y.dispatchState) && ToSend(x) == Some(send)
    ensures DecodeSends(InFlightRows([x])) == [send] && DecodeSends(InFlightRows([x, y])) == [send]
  {
    assert [x][1..] == [] && [x, y][1..] == [y] && [y][1..] == [];
    assert InsertRow(x, []) == [x] && InFlightRows([]) == [] && InFlightRows([y]) == [];
    assert InFlightRows([x]) == [x] && InFlightRows([x, y]) == [x];
  }

  lemma RecoveryReads(c: Fitting)
    ensures RecoverableSends(ClaimedA(c)) == [DurableSend(c.a, 10, Dispatching)]
    ensures RecoverableSends(BoundTo(SentB(c), c.b, c)) == [DurableSend(c.a, 10, Dispatching)]
  {
    BoundRows(c);
    var rows := BoundTo(SentB(c), c.b, c).outbound;
    assert rows == [rows[0], rows[1]];
    OneInFlight(ClaimedRow(c.a, c.now), rows[1], DurableSend(c.a, 10, Dispatching));
  }

  // The run

  ghost predicate Reaches(sha: Digest, ws: seq<World>, acts: seq<Action>, w: World) {
    IsRun(sha, ws, acts) && ws[|ws| - 1] == w
  }

  lemma StaysSound(sha: Digest, ws: seq<World>, acts: seq<Action>, w: World, a: Action, w': World)
    requires Reaches(sha, ws, acts, w) && Enabled(w, a) && w' == Apply(sha, w, a)
    requires Sound(w.db) && MailOk(w) && BindsFresh(w, a)
    ensures Sound(w'.db) && MailOk(w')
  {
    RunInv(sha, ws, acts, |acts|);
    StepSound(sha, w, a);
  }

  lemma Append(sha: Digest, ws: seq<World>, acts: seq<Action>, w: World, a: Action, w': World)
    requires Reaches(sha, ws, acts, w) && Enabled(w, a) && w' == Apply(sha, w, a)
    ensures Reaches(sha, ws + [w'], acts + [a], w')
  {
  }

  /** One more step; while bindings are fresh, tables and journal stay in agreement. */
  lemma Extend(sha: Digest, ws: seq<World>, acts: seq<Action>, w: World, a: Action, w': World)
    returns (ws': seq<World>, acts': seq<Action>)
    requires Reaches(sha, ws, acts, w) && Enabled(w, a) && w' == Apply(sha, w, a)
    ensures Reaches(sha, ws', acts', w')
    ensures Sound(w.db) && MailOk(w) && BindsFresh(w, a) ==> Sound(w'.db) && MailOk(w')
  {
    if Sound(w.db) && MailOk(w) && BindsFresh(w, a) { StaysSound(sha, ws, acts, w, a, w'); }
    Append(sha, ws, acts, w, a, w');
    ws', acts' := ws + [w'], acts + [a];
  }

  /** While chat.db holds only the row that was there before. */
  function Early(c: Case, db: Db, pc: Pc, replies: seq<Reply>, marks: map<string, int>): World {
    World(db, pc, [], map[10 := c.before], map[10 := c.before], 10, [], replies, marks)
  }

  function ReplyTo(job: SendJob): Reply {
    Reply(job, job.messageId, true)
  }

  lemma QueuedA(sha: Digest, c: Fitting) returns (ws: seq<World>, acts: seq<Action>)
    ensures var w := Early(c, AcceptedA(c), Idle, [ReplyTo(c.a)], map[]);
            Reaches(sha, ws, acts, w) && Sound(w.db) && MailOk(w)
  {
    AcceptedRows(c);
    var w := Early(c, Empty(c), Down, [], map[]);
    ws, acts := [w], [];
    InitialSound(w);
    ws, acts := Extend(sha, ws, acts, w, Start, w.(pc := Idle));
    ws, acts := Extend(sha, ws, acts, w.(pc := Idle), Request(c.a, c.now), Early(c, AcceptedA(c), Idle, [ReplyTo(c.a)], map[]));
  }

  /** The only queued job is taken under watermark 10. */
  lemma TakeQueued(sha: Digest, ws: seq<World>, acts: seq<Action>, v: World, job: SendJob, claimed: Db, w: World)
    returns (ws': seq<World>, acts': seq<Action>)
    requires Reaches(sha, ws, acts, v) && v.pc == Idle && IsMaxRowid(v.chat, 10) && Sound(v.db) && MailOk(v)
    requires NextQueued(v.db) == Some(DurableSend(job, 0, Waiting))
    requires MarkDispatching(v.db, job.messageId, 10) == (claimed, true)
    requires w == v.(db := claimed, pc := Claimed(job, 10), marks := v.marks[job.messageId := v.top])
    ensures Reaches(sha, ws', acts', w) && Sound(w.db) && MailOk(w)
  {
    ws', acts' := Extend(sha, ws, acts, v, Load, v.(pc := Loaded(job)));
    var u := v.(pc := Captured(job, 10, Some(v.top)));
    ws', acts' := Extend(sha, ws', acts', v.(pc := Loaded(job)), Capture(Some(10), 0), u);
    ws', acts' := Extend(sha, ws', acts', u, Claim(false), w);
  }

  lemma TakenA(sha: Digest, c: Fitting) returns (ws: seq<World>, acts: seq<Action>)
    ensures var w := Early(c, ClaimedA(c), Claimed(c.a, 10), [ReplyTo(c.a)], map[c.a.messageId := 10]);
            Reaches(sha, ws, acts, w) && Sound(w.db) && MailOk(w)
  {
    ClaimRows(c);
    QueueReads(c);
    ws, acts := QueuedA(sha, c);
    ws, acts := TakeQueued(sha, ws, acts, Early(c, AcceptedA(c), Idle, [ReplyTo(c.a)], map[]), c.a, ClaimedA(c),
                           Early(c, ClaimedA(c), Claimed(c.a, 10), [ReplyTo(c.a)], map[c.a.messageId := 10]));
  }

  /** The crash falls between the claim and the send. */
  lemma CrashedA(sha: Digest, c: Fitting) returns (ws: seq<World>, acts: seq<Action>)
    ensures var w := Early(c, ClaimedA(c), Idle, [ReplyTo(c.a)], map[c.a.messageId := 10]);
            Reaches(sha, ws, acts, w) && Sound(w.db) && MailOk(w)
  {
    ws, acts := TakenA(sha, c);
    var w := Early(c, ClaimedA(c), Idle, [ReplyTo(c.a)], map[c.a.messageId := 10]);
    ws, acts := Extend(sha, ws, acts, w.(pc := Claimed(c.a, 10)), Crash, w.(pc := Down));
    ws, acts := Extend(sha, ws, acts, w.(pc := Down), Start, w);
  }

  /** Recovery finds nothing for it yet. */
  lemma RestartedA(sha: Digest, c: Fitting) returns (ws: seq<World>, acts: seq<Action>)
    ensures var w := Early(c, ClaimedA(c), Idle, [ReplyTo(c.a)], map[c.a.messageId := 10]);
            Reaches(sha, ws, acts, w) && Sound(w.db) && MailOk(w)
  {
    RecoveryReads(c);
    ws, acts := CrashedA(sha, c);
    var w := Early(c, ClaimedA(c), Idle, [ReplyTo(c.a)], map[c.a.messageId := 10]);
    var todo := [DurableSend(c.a, 10, Dispatching)];
    ws, acts := Extend(sha, ws, acts, w, Recover, w.(pc := Resolving(todo)));
    assert todo[1..] == [];
    ws, acts := Extend(sha, ws, acts, w.(pc := Resolving(todo)), Resolve(None), w);
  }

  function Replies(c: Case): seq<Reply> {
    [ReplyTo(c.a), ReplyTo(c.b)]
  }

  function Marks(c: Case): map<string, int> {
    map[c.a.messageId := 10, c.b.messageId := 10]
  }

  lemma QueuedB(sha: Digest, c: Fitting) returns (ws: seq<World>, acts: seq<Action>)
    ensures var w := Early(c, AcceptedB(c), Idle, Replies(c), map[c.a.messageId := 10]);
            Reaches(sha, ws, acts, w) && Sound(w.db) && MailOk(w)
  {
    AcceptedRows(c);
    ws, acts := RestartedA(sha, c);
    assert Replies(c) == [ReplyTo(c.a)] + [ReplyTo(c.b)];
    ws, acts := Extend(sha, ws, acts, Early(c, ClaimedA(c), Idle, [ReplyTo(c.a)], map[c.a.messageId := 10]),
                       Request(c.b, c.now), Early(c, AcceptedB(c), Idle, Replies(c), map[c.a.messageId := 10]));
  }

  lemma TakenB(sha: Digest, c: Fitting) returns (ws: seq<World>, acts: seq<Action>)
    ensures var w := Early(c, ClaimedB(c), Claimed(c.b, 10), Replies(c), Marks(c));
            Reaches(sha, ws, acts, w) && Sound(w.db) && MailOk(w)
  {
    ClaimRows(c);
    QueueReads(c);
    ws, acts := QueuedB(sha, c);
    ws, acts := TakeQueued(sha, ws, acts, Early(c, AcceptedB(c), Idle, Replies(c), map[c.a.messageId := 10]), c.b,
                           ClaimedB(c), Early(c, ClaimedB(c), Claimed(c.b, 10), Replies(c), Marks(c)));
  }

  /** Once Messages has written the row of the second send. */
  function Late(c: Case, db: Db, pc: Pc, mail: seq<Mail>): World {
    World(db, pc, mail, map[10 := c.before, 11 := c.row.guid], map[10 := c.before, 11 := c.row.guid], 11,
          [c.b.messageId], Replies(c), Marks(c))
  }

  /** The row is a candidate for either send, and the selection is certain of it. */
  lemma BothSelect(c: Fitting, last: bool)
    ensures SelectCandidate([c.row], c.a.text, c.a.target, last) == Unique(Found11(c))
    ensures SelectCandidate([c.row], c.b.text, c.b.target, last) == Unique(Found11(c))
  {
    SingleRow(c.row, c.a.text, c.a.target);
    SingleRow(c.row, c.b.text, c.b.target);
  }

  lemma WrittenB(sha: Digest, c: Fitting) returns (ws: seq<World>, acts: seq<Action>)
    ensures var w := Late(c, ClaimedB(c), SenderOk(c.b, 10), []);
            Reaches(sha, ws, acts, w) && Sound(w.db) && MailOk(w)
  {
    ws, acts := TakenB(sha, c);
    var w := Early(c, ClaimedB(c), Claimed(c.b, 10), Replies(c), Marks(c));
    var v := w.(pc := SenderOk(c.b, 10), sends := [c.b.messageId]);
    ws, acts := Extend(sha, ws, acts, w, Send(true, ""), v);
    ws, acts := Extend(sha, ws, acts, v, ChatInsert(11, c.row.guid), Late(c, ClaimedB(c), SenderOk(c.b, 10), []));
  }

  lemma FoundB(sha: Digest, c: Fitting) returns (ws: seq<World>, acts: seq<Action>)
    ensures var w := Late(c, SentB(c), Found(Found11(c), [DurableSend(c.b, 10, SentUnbound)]), []);
            Reaches(sha, ws, acts, w) && Sound(w.db) && MailOk(w)
  {
    ws, acts := WrittenB(sha, c);
    var todo := [DurableSend(c.b, 10, SentUnbound)];
    var t := Late(c, SentB(c), Resolving(todo), []);
    ws, acts := Extend(sha, ws, acts, Late(c, ClaimedB(c), SenderOk(c.b, 10), []), RecordAcceptance(false, c.now), t);
    ws, acts := Extend(sha, ws, acts, t, Resolve(Some(Found11(c))), t.(pc := Found(Found11(c), todo)));
  }

  lemma BoundB(sha: Digest, c: Fitting) returns (ws: seq<World>, acts: seq<Action>)
    ensures var w := Late(c, BoundTo(SentB(c), c.b, c), Idle, []);
            Reaches(sha, ws, acts, w) && Sound(w.db) && MailOk(w)
  {
    SentRows(c);
    ws, acts := FoundB(sha, c);
    var todo := [DurableSend(c.b, 10, SentUnbound)];
    assert todo[1..] == [];
    ws, acts := Extend(sha, ws, acts, Late(c, SentB(c), Found(Found11(c), todo), []), Bind(false, c.now),
                       Late(c, BoundTo(SentB(c), c.b, c), Idle, []));
  }

  function Shared(c: Case): Db {
    BoundTo(BoundTo(SentB(c), c.b, c), c.a, c)
  }

  /** Recovery takes up the first send and binds it to the row of the second. */
  lemma BoundA(sha: Digest, c: Fitting) returns (ws: seq<World>, acts: seq<Action>)
    ensures Reaches(sha, ws, acts, Late(c, Shared(c), Idle, []))
  {
    RecoveryReads(c);
    ws, acts := BoundB(sha, c);
    var w := Late(c, BoundTo(SentB(c), c.b, c), Idle, []);
    var todo := [DurableSend(c.a, 10, Dispatching)];
    assert todo[1..] == [];
    ws, acts := Extend(sha, ws, acts, w, Recover, w.(pc := Resolving(todo)));
    ws, acts := Extend(sha, ws, acts, w.(pc := Resolving(todo)), Resolve(Some(Found11(c))), w.(pc := Found(Found11(c), todo)));
    ws, acts := Extend(sha, ws, acts, w.(pc := Found(Found11(c), todo)), Bind(false, c.now), Late(c, Shared(c), Idle, []));
  }

  function Disagreeing(c: Case): Db {
    AdvanceStatus(Shared(c), c.row.guid, Read, c.now, c.now).0
  }

  function Receipt(c: Case): Mail {
    Mail(c.row.guid, Read, c.now)
  }

  lemma StatusSeen(sha: Digest, c: Fitting) returns (ws: seq<World>, acts: seq<Action>)
    ensures Reaches(sha, ws, acts, Late(c, Shared(c), Idle, [Receipt(c)]))
  {
    ws, acts := BoundA(sha, c);
    var w := Late(c, Shared(c), Idle, []);
    ws, acts := Extend(sha, ws, acts, w, Observe(Receipt(c)), w.(mail := [Receipt(c)]));
  }

  lemma Correlates(sha: Digest, w: World, mail: Mail, now: string)
    requires w.mail == [mail] && !w.pc.Down?
    ensures Enabled(w, Correlate(false, now))
    ensures Apply(sha, w, Correlate(false, now))
         == w.(db := AdvanceStatus(w.db, mail.guid, mail.status, mail.timestamp, now).0, mail := [])
  {
  }

  lemma StatusArrives(sha: Digest, c: Fitting) returns (ws: seq<World>, acts: seq<Action>)
    ensures Reaches(sha, ws, acts, Late(c, Disagreeing(c), Idle, []))
  {
    ws, acts := StatusSeen(sha, c);
    var v, w := Late(c, Shared(c), Idle, [Receipt(c)]), Late(c, Disagreeing(c), Idle, []);
    Correlates(sha, v, Receipt(c), c.now);
    Append(sha, ws, acts, v, Correlate(false, c.now), w);
    ws, acts := ws + [w], acts + [Correlate(false, c.now)];
  }

  lemma Disagree(sha: Digest, c: Fitting)
    ensures !Agrees(Disagreeing(c))
  {
    var ws, acts := BoundB(sha, c);
    BoundRows(c);
    SharedGuidBreaksAdvance(BoundTo(SentB(c), c.b, c), 0, 1, 11, c.row.guid, Found11(c).chatId, c.now);
  }

  lemma BothHold(c: Fitting)
    ensures var rows := Disagreeing(c).outbound;
            |rows| == 2 && rows[0].guid == Some(c.row.guid) && rows[1].guid == Some(c.row.guid)
  {
    BoundRows(c);
    var rows := BoundTo(SentB(c), c.b, c).outbound;
    assert Find(rows, c.a.messageId) == 0;
  }

  /** The run: the first send is claimed under watermark 10 and the process dies before the
      sender is called; the second is claimed under the same watermark, sent, and bound to row
      11; then recovery resolves the first to row 11 as well, since the selection is certain of
      it. After one more status both rows have moved and only one message has a journal entry
      for it: table and journal disagree. */
  lemma SharedGuidHappens(sha: Digest, c: Fitting) returns (ws: seq<World>, acts: seq<Action>)
    ensures IsRun(sha, ws, acts)
    ensures SelectCandidate([c.row], c.a.text, c.a.target, false) == Unique(Found11(c))
    ensures var w := ws[|ws| - 1];
            && |w.db.outbound| == 2 && w.db.outbound[0].guid == Some(c.row.guid) && w.db.outbound[1].guid == Some(c.row.guid)
            && w.sends == [c.b.messageId] && !Agrees(w.db)
  {
    BothSelect(c, false);
    BothHold(c);
    Disagree(sha, c);
    ws, acts := StatusArrives(sha, c);
  }
}
