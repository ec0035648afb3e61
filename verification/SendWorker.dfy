/** The send worker as a program. Whatever its environment answers and however the other
    actors interleave, what it does is a run of the outbound transition system; so every
    theorem about runs holds of it, with a crash after any of its steps. And every step it
    logs rests on what the environment answered it for that step, and on nothing else. */
module SendWorker {
  import opened Wrappers
  import opened Model
  import opened Fingerprint
  import opened Tables
  import opened Resolver
  import opened Outbound
  import opened SendQueue
  import opened Store
  import Watermark

  const RESOLVE_ATTEMPTS: nat := 32

  /** What the worker is told from outside state.db, with what it asked. */
  datatype Answer =
    | MaxRowid(rowid: Option<int>)
    | Sender(job: SendJob, ok: bool, reason: string)
    | Rows(pre: int, rows: Option<seq<CandidateRow>>)
    | Time(now: string)

  /** Attempts that found nothing: queries for this send, none of which decided. */
  predicate AllPending(asked: seq<Answer>, send: DurableSend) {
    forall k :: 0 <= k < |asked| ==>
      asked[k].Rows? && asked[k].pre == send.preRowid && asked[k].rows.Some?
      && SelectCandidate(asked[k].rows.value, send.job.text, send.job.target, false) == Pending
  }

  /** What the last of the attempts says: the row it answers, or none when the query failed, when
      it is ambiguous, or when no attempt is left. */
  predicate Decides(answer: Answer, send: DurableSend, last: bool, found: Option<ResolvedRow>) {
    answer.Rows? && answer.pre == send.preRowid
    && match answer.rows
       case None => found == None
       case Some(rows) =>
         match SelectCandidate(rows, send.job.text, send.job.target, last)
         case Unique(row) => found == Some(row)
         case Ambiguous(_) => found == None
         case Pending => last && found == None
  }

  /** `resolve_sent_row`, from what its queries returned: at most 32 attempts, of which only the
      last may fall back to a lone row, and the first that decides ends them. */
  predicate Concludes(asked: seq<Answer>, send: DurableSend, found: Option<ResolvedRow>) {
    0 < |asked| <= RESOLVE_ATTEMPTS && AllPending(asked[..|asked| - 1], send)
    && Decides(asked[|asked| - 1], send, |asked| == RESOLVE_ATTEMPTS, found)
  }

  /** A step of the worker and the answers it rests on. */
  predicate Rests(w: World, a: Action, given: seq<Answer>) {
    match a
    case Load => given == []
    case Capture(read, _) => given == [MaxRowid(read)]
    case Claim(_) => given == []
    case Send(ok, reason) => w.pc.Claimed? && given == [Sender(w.pc.job, ok, reason)]
    case RecordAcceptance(_, now) => given == [Time(now)]
    case RecordFailure(_, now) => given == [Time(now)]
    case Recover => given == []
    case Resolve(found) => w.pc.Resolving? && w.pc.todo != [] && Concludes(given, w.pc.todo[0], found)
    case Bind(_, now) => given == [Time(now)]
    case _ => false
  }

  /** The transaction a step stands for. */
  function Done(a: Action): seq<Outcome> {
    match a
    case Claim(fault) => [Outcome(Claiming, !fault)]
    case RecordAcceptance(fault, _) => [Outcome(RecordingSent, !fault)]
    case RecordFailure(fault, _) => [Outcome(RecordingFailed, !fault)]
    case Bind(fault, _) => [Outcome(Binding, !fault)]
    case _ => []
  }

  predicate Foreign(a: Action) {
    a.Request? || a.Observe? || a.Correlate? || a.Inbound? || a.ChatInsert? || a.ChatDelete?
  }

  function Max(a: int, b: int): int {
    if a < b then b else a
  }

  /** A row the resolver may answer for a send with this watermark. */
  predicate InChat(chat: map<int, string>, pre: int, row: ResolvedRow) {
    row.rowid in chat && chat[row.rowid] == row.guid && row.rowid > pre
  }

  function Verdict(outcome: ResolveAttempt): Option<ResolvedRow> {
    if outcome.Unique? then Some(outcome.row) else None
  }

  class SendWorker {
    const store: Store
    var maxRowid: int
    var published: seq<JournaledEvent>
    ghost var trace: seq<World>
    ghost var acts: seq<Action>
    ghost var answers: seq<Answer>    // history: written only by the methods that ask
    ghost var timeouts: nat           // history: written by `Wake` alone
    ghost var used: seq<Answer>       // the answers the steps logged so far rest on
    ghost var settled: seq<Outcome>   // the transactions the steps logged so far stand for

    ghost predicate Agrees()
      reads `trace, `acts, store`outbound, store`idempotency, store`events
    {
      IsRun(store.sha, trace, acts) && Now().db == store.Db()
    }

    /** Every answer and every transaction so far is accounted for, but for the answers given. */
    ghost predicate Asking(given: seq<Answer>)
      reads `answers, `used, `settled, store`commits
    {
      answers == used + given && store.commits == settled
    }

    ghost predicate Valid()
      reads `trace, `acts, `answers, `used, `settled, store`outbound, store`idempotency, store`events, store`commits
    {
      Agrees() && answers == used && store.commits == settled
    }

    ghost function Now(): World
      reads `trace
      requires trace != []
    {
      trace[|trace| - 1]
    }

    /** The run so far has only been extended, by so many claims that took effect. */
    twostate predicate Extends(claims: nat)
      reads `trace, `acts, `answers, store`commits
    {
      old(trace) <= trace && old(acts) <= acts && Claims(acts) == Claims(old(acts)) + claims
      && old(answers) <= answers && old(store.commits) <= store.commits
    }

    /** A started process over a given store and history. */
    constructor (store: Store, ghost trace: seq<World>, ghost acts: seq<Action>)
      requires IsRun(store.sha, trace, acts) && trace[|trace| - 1].db == store.Db()
      ensures Valid() && this.store == store && this.trace == trace && this.acts == acts && published == []
    {
      this.store, this.trace, this.acts, maxRowid, published := store, trace, acts, 0, [];
      answers, used, settled, timeouts := [], [], store.commits, 0;
    }

    /** One step of the worker joins the run, with the answers it rests on. */
    ghost method Log(a: Action, given: seq<Answer>)
      requires IsRun(store.sha, trace, acts) && Enabled(Now(), a) && Rests(Now(), a, given)
      requires Apply(store.sha, Now(), a).db == store.Db()
      requires answers == used + given && store.commits == settled + Done(a)
      modifies `trace, `acts, `used, `settled
      ensures Valid() && Extends(if a == Claim(false) then 1 else 0) && acts == old(acts) + [a]
      ensures Now() == Apply(store.sha, old(Now()), a) && |trace| == |old(trace)| + 1
    {
      var next := Apply(store.sha, Now(), a);
      RunExtends(store.sha, trace, acts, a, next);
      trace, acts := trace + [next], acts + [a];
      used, settled := answers, store.commits;
    }

    /** Any number of steps of the other actors: requests, the correlator, the receive worker,
        Messages.app. Callers learn only this contract. */
    method Interfere()
      requires Agrees()
      modifies `trace, `acts, `maxRowid, store`outbound, store`idempotency, store`events
      ensures Agrees() && Extends(0) && Now().pc == old(Now().pc)
      ensures forall k :: |old(acts)| <= k < |acts| ==> Foreign(acts[k])
    {
    }

    /** `current_max_rowid`; chat.db may be unreadable. */
    method CurrentMaxRowid() returns (r: Option<int>)
      requires Agrees()
      modifies `answers
      ensures answers == old(answers) + [MaxRowid(r)]
      ensures r.Some? ==> IsMaxRowid(Now().chat, r.value)
    {
      r := None;
      answers := answers + [MaxRowid(r)];
    }

    /** The candidate query of one resolve attempt; chat.db may be unreadable. */
    method ReadCandidates(pre: int) returns (r: Option<seq<CandidateRow>>)
      requires Agrees()
      modifies `answers
      ensures answers == old(answers) + [Rows(pre, r)]
      ensures r.Some? ==> Candidates(Now().chat, pre, r.value)
    {
      r := None;
      answers := answers + [Rows(pre, r)];
    }

    /** `Sender::send`. */
    method CallSender(job: SendJob) returns (ok: bool, reason: string)
      modifies `answers
      ensures answers == old(answers) + [Sender(job, ok, reason)]
    {
      ok := *;
      reason := *;
      answers := answers + [Sender(job, ok, reason)];
    }

    /** `now_iso`. */
    method Clock() returns (now: string)
      modifies `answers
      ensures answers == old(answers) + [Time(now)]
    {
      now := *;
      answers := answers + [Time(now)];
    }

    /** `wake_rx.recv`, unless the reconcile interval ends first. */
    method Wake() returns (woken: bool)
      modifies `timeouts
      ensures timeouts == old(timeouts) + if woken then 0 else 1
    {
      woken := *;
      timeouts := timeouts + if woken then 0 else 1;
    }

    /** Takes the watermark: what chat.db answers, and the one remembered only when it does not. */
    method CaptureNow(job: SendJob) returns (pre: int, ghost read: Option<int>)
      requires Valid() && Now().pc == Loaded(job)
      modifies `trace, `acts, `answers, `used, `settled, `maxRowid
      ensures Valid() && Extends(0) && answers == old(answers) + [MaxRowid(read)] && store.commits == old(store.commits)
      ensures Now().pc == Captured(job, pre, if read.Some? then Some(Now().top) else None)
      ensures match read
              case Some(rowid) => pre == rowid && IsMaxRowid(Now().chat, rowid) && maxRowid == Max(old(maxRowid), rowid)
              case None => pre == maxRowid == old(maxRowid)
    {
      var answer := CurrentMaxRowid();
      if answer.Some? && answer.value > maxRowid {
        maxRowid := answer.value;
      }
      pre := if answer.Some? then answer.value else maxRowid;
      Log(Capture(answer, pre), [MaxRowid(answer)]);
      read := answer;
    }

    /** `process_queued` opens with the freshest watermark it can get: the highest ROWID of chat.db,
        and the watermark remembered only when chat.db does not answer. */
    method CaptureWatermark(job: SendJob) returns (pre: int, ghost read: Option<int>)
      requires Valid() && Now().pc == Loaded(job)
      modifies `trace, `acts, `maxRowid, `answers, `used, `settled, store`outbound, store`idempotency, store`events
      ensures Valid() && Extends(0) && answers == old(answers) + [MaxRowid(read)]
      ensures Now().pc == Captured(job, pre, if read.Some? then Some(Now().top) else None)
      ensures match read
              case Some(rowid) => pre == rowid && IsMaxRowid(Now().chat, rowid) && pre <= maxRowid
              case None => pre == maxRowid
    {
      Interfere();
      pre, read := CaptureNow(job);
    }

    /** It then claims the job; the claim takes effect unless its transaction fails, and with it
        the row keeps the watermark. */
    method ClaimJob(job: SendJob, pre: int) returns (claimed: bool)
      requires Valid() && Now().pc.Captured? && Now().pc.job == job && Now().pc.pre == pre
      modifies `trace, `acts, `maxRowid, `used, `settled,
               store`outbound, store`idempotency, store`events, store`commits
      ensures Valid() && Extends(if claimed then 1 else 0) && Now().pc == if claimed then Claimed(job, pre) else Idle
      ensures store.commits == old(store.commits) + [Outcome(Claiming, claimed)]
      ensures claimed && old(Now()).pc.mark.Some? ==>
                job.messageId in Now().marks && Now().marks[job.messageId] == old(Now()).pc.mark.value
    {
      Interfere();
      RunInv(store.sha, trace, acts, |acts|);
      ghost var before := Now();
      var r := store.MarkDispatching(job.messageId, pre);
      ClaimStep(store.sha, before, job, pre, r, store.Db());
      Log(Claim(r.Failure?), []);
      claimed := r == Success(true);
    }

    /** It invokes the sender once, with the claim in hand. */
    method InvokeSender(job: SendJob, pre: int) returns (ok: bool, reason: string)
      requires Valid() && Now().pc == Claimed(job, pre)
      modifies `trace, `acts, `maxRowid, `answers, `used, `settled, store`outbound, store`idempotency, store`events
      ensures Valid() && Extends(0) && Now().pc == if ok then SenderOk(job, pre) else SenderErr(job, reason)
      ensures answers == old(answers) + [Sender(job, ok, reason)]
    {
      Interfere();
      ok, reason := CallSender(job);
      Log(Send(ok, reason), [Sender(job, ok, reason)]);
    }

    /** `sink.publish_committed`. */
    method Publish(entry: JournaledEvent)
      modifies `published
      ensures published == old(published) + [entry]
    {
      published := published + [entry];
    }

    /** The entry just journaled is published, if there is one. */
    twostate predicate Publishes(ok: bool)
      reads `published, `trace
    {
      trace != []
      && if ok then LastEntry(Now().db).Some? && published == old(published) + [LastEntry(Now().db).value]
         else published == old(published)
    }

    method RecordAccepted(job: SendJob, pre: int) returns (r: Result<JournaledEvent, StoreError>)
      requires Valid() && Now().pc == SenderOk(job, pre)
      modifies `trace, `acts, `answers, `used, `settled, store`outbound, store`events, store`commits
      ensures Valid() && Extends(0) && Now().pc == Resolving([DurableSend(job, pre, SentUnbound)])
      ensures store.commits == old(store.commits) + [Outcome(RecordingSent, r.Success?)]
      ensures r.Success? ==> Some(r.value) == LastEntry(Now().db)
    {
      var now := Clock();
      r := store.RecordSentAcceptance(job, now);
      Log(RecordAcceptance(r.Failure?, now), [Time(now)]);
    }

    /** The acceptance is recorded, and its entry published when that succeeds. */
    method FinishAccepted(job: SendJob, pre: int) returns (ghost ok: bool)
      requires Valid() && Now().pc == SenderOk(job, pre)
      modifies `trace, `acts, `maxRowid, `published, `answers, `used, `settled,
               store`outbound, store`idempotency, store`events, store`commits
      ensures Valid() && Extends(0) && Now().pc == Resolving([DurableSend(job, pre, SentUnbound)])
      ensures store.commits == old(store.commits) + [Outcome(RecordingSent, ok)] && Publishes(ok)
    {
      Interfere();
      var recorded := RecordAccepted(job, pre);
      ok := recorded.Success?;
      if recorded.Success? {
        Publish(recorded.value);
      }
    }

    method RecordRefused(job: SendJob, reason: string) returns (r: Result<JournaledEvent, StoreError>)
      requires Valid() && Now().pc == SenderErr(job, reason)
      modifies `trace, `acts, `answers, `used, `settled, store`outbound, store`events, store`commits
      ensures Valid() && Extends(0) && Now().pc == Idle
      ensures store.commits == old(store.commits) + [Outcome(RecordingFailed, r.Success?)]
      ensures r.Success? ==> Some(r.value) == LastEntry(Now().db)
    {
      var now := Clock();
      r := store.RecordFailed(job, reason, now);
      Log(RecordFailure(r.Failure?, now), [Time(now)]);
    }

    /** And so is the refusal. */
    method FinishRefused(job: SendJob, reason: string) returns (ghost ok: bool)
      requires Valid() && Now().pc == SenderErr(job, reason)
      modifies `trace, `acts, `maxRowid, `published, `answers, `used, `settled,
               store`outbound, store`idempotency, store`events, store`commits
      ensures Valid() && Extends(0) && Now().pc == Idle
      ensures store.commits == old(store.commits) + [Outcome(RecordingFailed, ok)] && Publishes(ok)
    {
      Interfere();
      var recorded := RecordRefused(job, reason);
      ok := recorded.Success?;
      if recorded.Success? {
        Publish(recorded.value);
      }
    }

    /** `process_queued` from the claim on: the sender is called first, and its answer recorded
        next. */
    method SendClaimed(job: SendJob, pre: int) returns (ghost ok: bool, ghost reason: string, ghost recorded: bool)
      requires Valid() && Now().pc == Claimed(job, pre)
      modifies `trace, `acts, `maxRowid, `published, `answers, `used, `settled,
               store`outbound, store`idempotency, store`events, store`commits
      ensures Valid() && Extends(0) && Now().pc == Idle
      ensures old(answers) + [Sender(job, ok, reason)] <= answers
      ensures old(store.commits) + [Outcome(if ok then RecordingSent else RecordingFailed, recorded)] <= store.commits
    {
      hide IsRun;
      var sent, why := InvokeSender(job, pre);
      ok, reason := sent, why;
      if sent {
        recorded := FinishAccepted(job, pre);
        ghost var asked, found := ResolveAndFinish(job, pre, [DurableSend(job, pre, SentUnbound)]);
      } else {
        recorded := FinishRefused(job, why);
      }
    }

    /** The queries for work and the claims that failed. */
    ghost function Trouble(): nat
      reads store`queries, store`commits
    {
      Failures(store.queries, LoadingQueue) + Failures(store.commits, Claiming)
    }

    /** `process_queued`: takes one loaded job off the queue and as far as it gets, unless the
        claim fails. The claim stores the ROWID chat.db answered just before, or the remembered
        one when it did not answer; the sender is called only behind the claim. */
    method ProcessQueued(job: SendJob) returns (ghost claimed: bool, ghost read: Option<int>, ghost pre: int)
      requires Valid() && Now().pc == Loaded(job)
      modifies `trace, `acts, `maxRowid, `published, `answers, `used, `settled,
               store`outbound, store`idempotency, store`events, store`commits
      ensures Valid() && Extends(if claimed then 1 else 0) && Now().pc == Idle
      ensures read.Some? ==> pre == read.value
      ensures old(store.commits) + [Outcome(Claiming, claimed)] <= store.commits
      ensures if claimed
              then exists ok, reason :: old(answers) + [MaxRowid(read), Sender(job, ok, reason)] <= answers
              else answers == old(answers) + [MaxRowid(read)]
      ensures claimed ==> PreIs(Now().db.outbound, job, pre) && (read.Some? ==> job.messageId in Now().marks)
      ensures Trouble() >= old(Trouble()) + if claimed then 0 else 1
    {
      hide IsRun, Claims, PreIs;
      var taken, rowid := false, 0;
      rowid, read := CaptureWatermark(job);
      taken := ClaimJob(job, rowid);
      claimed, pre := taken, rowid;
      FailuresGrow(old(store.commits), store.commits, Claiming);
      if !taken {
        return;
      }
      ghost var i, here, asked := |trace| - 1, trace, store.commits;
      ghost var ok, reason, recorded := SendClaimed(job, rowid);
      assert trace[i] == here[i];
      ClaimRemembered(store.sha, trace, acts, i, |trace| - 1, job, rowid);
      FailuresGrow(asked, store.commits, Claiming);
      assert old(answers) + [MaxRowid(read), Sender(job, ok, reason)] <= answers;
    }

    /** The binding transaction for the send at the head of `todo`. */
    method BindRow(job: SendJob, row: ResolvedRow, ghost todo: seq<DurableSend>)
      returns (r: Result<Option<JournaledEvent>, StoreError>)
      requires Valid() && todo != [] && todo[0].job == job && Now().pc == Found(row, todo)
      modifies `trace, `acts, `answers, `used, `settled, store`outbound, store`events, store`commits
      ensures Valid() && Extends(0) && Now().pc == NextPc(todo[1..])
      ensures store.commits == old(store.commits) + [Outcome(Binding, r.Success?)]
      ensures if r.Success? && r.value.Some? then r.value == LastEntry(Now().db) else Now().db == old(Now()).db
    {
      var now := Clock();
      ghost var before := Now();
      r := store.BindAndRecordSent(job.messageId, row.rowid, row.guid, row.chatId, now);
      BindStep(store.sha, before, row, todo, r.Failure?, now, store.Db(), r.Success? && r.value.Some?);
      Log(Bind(r.Failure?, now), [Time(now)]);
    }

    /** Binds the row found; once it is bound its ROWID is remembered as a watermark and its entry
        published. */
    method BindFound(job: SendJob, row: ResolvedRow, ghost todo: seq<DurableSend>) returns (ghost ok: bool, ghost bound: bool)
      requires Valid() && todo != [] && todo[0].job == job && Now().pc == Found(row, todo)
      modifies `trace, `acts, `answers, `used, `settled, `published, `maxRowid,
               store`outbound, store`events, store`commits
      ensures Valid() && Extends(0) && Now().pc == NextPc(todo[1..])
      ensures store.commits == old(store.commits) + [Outcome(Binding, ok)] && (bound ==> ok)
      ensures bound || Now().db == old(Now()).db
      ensures Publishes(bound) && maxRowid == if bound then Max(old(maxRowid), row.rowid) else old(maxRowid)
    {
      var r := BindRow(job, row, todo);
      ok, bound := r.Success?, r.Success? && r.value.Some?;
      if r.Success? && r.value.Some? {
        if row.rowid > maxRowid {
          maxRowid := row.rowid;
        }
        Publish(r.value.value);
      }
    }

    /** `resolve_and_finish` for the send at the head of `todo`: the row its queries decide on, if
        any, is bound, or an attempt at that failed. */
    method ResolveAndFinish(job: SendJob, pre: int, ghost todo: seq<DurableSend>)
      returns (ghost asked: seq<Answer>, ghost found: Option<ResolvedRow>)
      requires Valid() && todo != [] && Now().pc == Resolving(todo)
      requires todo[0].job == job && todo[0].preRowid == pre
      modifies `trace, `acts, `maxRowid, `published, `answers, `used, `settled,
               store`outbound, store`idempotency, store`events, store`commits
      ensures Valid() && Extends(0) && Now().pc == NextPc(todo[1..])
      ensures Concludes(asked, todo[0], found) && old(answers) + asked <= answers
      ensures if found.None? then store.commits == old(store.commits)
              else exists ok :: store.commits == old(store.commits) + [Outcome(Binding, ok)]
    {
      hide IsRun, Concludes;
      var row;
      row, asked := ResolveSentRow(job, pre, todo);
      found := row;
      if row.Some? {
        Interfere();
        ghost var ok, bound := BindFound(job, row.value, todo);
      }
    }

    /** The resolution of the head of `todo` ends as its queries say. */
    ghost method Conclude(found: Option<ResolvedRow>, todo: seq<DurableSend>, asked: seq<Answer>)
      requires Agrees() && Asking(asked) && todo != [] && Now().pc == Resolving(todo) && Concludes(asked, todo[0], found)
      requires found.Some? ==> InChat(Now().chat, todo[0].preRowid, found.value)
      modifies `trace, `acts, `used, `settled
      ensures Valid() && Extends(0)
      ensures Now().pc == if found.Some? then Found(found.value, todo) else NextPc(todo[1..])
    {
      Log(Resolve(found), asked);
    }

    /** `resolve_once`: one query and one selection, after so many that found nothing. */
    method ResolveOnce(job: SendJob, pre: int, last: bool, ghost todo: seq<DurableSend>, ghost before: seq<Answer>)
      returns (outcome: ResolveAttempt, ghost asked: seq<Answer>, ghost answer: Answer)
      requires Agrees() && Asking(before) && todo != [] && Now().pc == Resolving(todo)
      requires todo[0].job == job && todo[0].preRowid == pre
      requires AllPending(before, todo[0]) && |before| < RESOLVE_ATTEMPTS && (last <==> |before| + 1 == RESOLVE_ATTEMPTS)
      modifies `trace, `acts, `maxRowid, `answers, `used, `settled, store`outbound, store`idempotency, store`events
      ensures Extends(0) && asked == before + [answer] && answers == old(answers) + [answer]
      ensures Agrees() && if outcome.Pending? && !last then Asking(asked) && AllPending(asked, todo[0]) && Now().pc == Resolving(todo)
                          else Valid() && Concludes(asked, todo[0], Verdict(outcome))
                               && Now().pc == if outcome.Unique? then Found(outcome.row, todo) else NextPc(todo[1..])
    {
      Interfere();
      var rows := ReadCandidates(pre);
      outcome := if rows.None? then Ambiguous(0) else SelectCandidate(rows.value, job.text, job.target, last);
      answer := Rows(pre, rows);
      asked := before + [answer];
      OneMoreAttempt(Now().chat, before, rows, todo[0], last, outcome);
      if !outcome.Pending? || last {
        Conclude(Verdict(outcome), todo, asked);
      }
    }

    /** `resolve_sent_row`: up to 32 attempts, of which only the last may fall back to a lone
        row; an ambiguity or a failed query ends them. */
    method ResolveSentRow(job: SendJob, pre: int, ghost todo: seq<DurableSend>)
      returns (found: Option<ResolvedRow>, ghost asked: seq<Answer>)
      requires Valid() && todo != [] && Now().pc == Resolving(todo)
      requires todo[0].job == job && todo[0].preRowid == pre
      modifies `trace, `acts, `maxRowid, `answers, `used, `settled, store`outbound, store`idempotency, store`events
      ensures Valid() && Extends(0) && answers == old(answers) + asked && Concludes(asked, todo[0], found)
      ensures Now().pc == if found.Some? then Found(found.value, todo) else NextPc(todo[1..])
    {
      asked := [];
      for attempt := 0 to RESOLVE_ATTEMPTS
        invariant Agrees() && Extends(0) && answers == old(answers) + asked && |asked| == attempt
        invariant if attempt < RESOLVE_ATTEMPTS then Asking(asked) && AllPending(asked, todo[0]) && Now().pc == Resolving(todo)
                  else Valid() && Concludes(asked, todo[0], None) && Now().pc == NextPc(todo[1..])
      {
        ghost var before := asked;
        var outcome, all, answer := ResolveOnce(job, pre, attempt + 1 == RESOLVE_ATTEMPTS, todo, before);
        asked := all;
        assert old(answers) + (before + [answer]) == old(answers) + before + [answer];
        match outcome
        case Unique(row) =>
          return Some(row), asked;
        case Ambiguous(_) =>
          return None, asked;
        case Pending =>
      }
      return None, asked;
    }

    /** The loop of `recover_inflight`. */
    method ResolveAll(todo: seq<DurableSend>)
      requires Valid() && Now().pc == NextPc(todo)
      modifies `trace, `acts, `maxRowid, `published, `answers, `used, `settled,
               store`outbound, store`idempotency, store`events, store`commits
      ensures Valid() && Extends(0) && Now().pc == Idle && |answers| >= |old(answers)| + |todo|
    {
      for i := 0 to |todo|
        invariant Valid() && Extends(0) && Now().pc == NextPc(todo[i..]) && |answers| >= |old(answers)| + i
      {
        ghost var asked, found := ResolveAndFinish(todo[i].job, todo[i].preRowid, todo[i..]);
        assert todo[i..][1..] == todo[i + 1..];
      }
    }

    /** `recover_inflight`: reconciles every send that is in flight when it starts, unless the
        query for them fails. */
    method RecoverInflight() returns (found: Option<seq<DurableSend>>)
      requires Valid() && Now().pc == Idle
      modifies `trace, `acts, `maxRowid, `published, `answers, `used, `settled,
               store`outbound, store`idempotency, store`events, store`commits, store`queries
      ensures Valid() && Extends(0) && Now().pc == Idle
      ensures store.queries == old(store.queries) + [Outcome(LoadingFlight, found.Some?)]
      ensures found.None? ==> acts == old(acts)
      ensures found.Some? ==> found.value == RecoverableSends(old(Now()).db) && |answers| >= |old(answers)| + |found.value|
                              && |old(acts)| < |acts| && acts[|old(acts)|] == Recover
    {
      var sends := store.RecoverableSends();
      if sends.Failure? {
        return None;
      }
      var todo := sends.value;
      found := Some(todo);
      Log(Recover, []);
      ResolveAll(todo);
    }

    /** Reads the queue. */
    method LoadNext() returns (r: Result<Option<DurableSend>, StoreError>)
      requires Valid() && Now().pc == Idle
      modifies `trace, `acts, `maxRowid, `used, `settled,
               store`outbound, store`idempotency, store`events, store`queries
      ensures Valid() && Extends(0) && store.queries == old(store.queries) + [Outcome(LoadingQueue, r.Success?)]
      ensures Now().pc == if r.Success? && r.value.Some? then Loaded(r.value.value.job) else Idle
      ensures r == Success(None) ==> NextQueued(Now().db) == None
    {
      Interfere();
      r := store.NextQueued();
      if r.Success? && r.value.Some? {
        Log(Load, []);
      }
    }

    /** One turn of the inner loop of `run`: a claimed job, an empty queue, or trouble. */
    method DrainOne() returns (drained: bool, ghost claimed: bool, ghost readable: bool)
      requires Valid() && Now().pc == Idle
      modifies `trace, `acts, `maxRowid, `published, `answers, `used, `settled,
               store`outbound, store`idempotency, store`events, store`commits, store`queries
      ensures Valid() && Extends(if claimed then 1 else 0) && Now().pc == Idle
      ensures store.queries == old(store.queries) + [Outcome(LoadingQueue, readable)]
      ensures drained ==> !claimed && NextQueued(Now().db) == None
      ensures Trouble() >= old(Trouble()) + if drained || claimed then 0 else 1
    {
      var next := LoadNext();
      FailuresGrow(old(store.queries), store.queries, LoadingQueue);
      claimed, readable := false, next.Success?;
      drained := next == Success(None);
      if next.Success? && next.value.Some? {
        ghost var read, pre;
        claimed, read, pre := ProcessQueued(next.value.value.job);
      }
    }

    /** The inner loop of `run`, for so many turns at most: takes queued jobs until the queue
        reads empty. Every turn that meets no trouble takes exactly one row off the queue. */
    method Drain(turns: nat) returns (drained: bool, ghost claims: nat)
      requires Valid() && Now().pc == Idle
      modifies `trace, `acts, `maxRowid, `published, `answers, `used, `settled,
               store`outbound, store`idempotency, store`events, store`commits, store`queries
      ensures Valid() && Extends(claims) && Now().pc == Idle
      ensures drained ==> NextQueued(Now().db) == None
      ensures drained || claims + Trouble() >= turns + old(Trouble())
      ensures Asked(store.queries, LoadingFlight) == Asked(old(store.queries), LoadingFlight)
      ensures Asked(store.queries, LoadingQueue) >= Asked(old(store.queries), LoadingQueue) + if turns > 0 then 1 else 0
    {
      claims := 0;
      for turn := 0 to turns
        invariant Valid() && Extends(claims) && Now().pc == Idle
        invariant claims + Trouble() >= turn + old(Trouble())
        invariant Asked(store.queries, LoadingFlight) == Asked(old(store.queries), LoadingFlight)
        invariant Asked(store.queries, LoadingQueue) >= Asked(old(store.queries), LoadingQueue) + turn
      {
        var empty, claimed, readable := DrainOne();
        if empty {
          return true, claims;
        }
        claims := claims + if claimed then 1 else 0;
      }
      return false, claims;
    }

    /** A drain without trouble and without new requests, given more turns than rows are queued,
        ends with an empty queue after exactly as many claims as rows were queued. */
    method DrainAll(turns: nat) returns (drained: bool, ghost claims: nat)
      requires Valid() && Now().pc == Idle
      modifies `trace, `acts, `maxRowid, `published, `answers, `used, `settled,
               store`outbound, store`idempotency, store`events, store`commits, store`queries
      ensures Valid() && Extends(claims) && Now().pc == Idle
      ensures Trouble() == old(Trouble()) && |Now().db.outbound| == |old(Now()).db.outbound|
              && turns > QueueLength(old(Now()).db.outbound) ==>
                drained && claims == QueueLength(old(Now()).db.outbound) && NextQueued(Now().db) == None
      ensures Asked(store.queries, LoadingFlight) == Asked(old(store.queries), LoadingFlight)
      ensures Asked(store.queries, LoadingQueue) >= Asked(old(store.queries), LoadingQueue) + if turns > 0 then 1 else 0
    {
      Conserved(store.sha, trace, acts);
      drained, claims := Drain(turns);
      Conserved(store.sha, trace, acts);
    }

    /** `recover_inflight` whatever comes of it: one query. */
    method RecoverNow()
      requires Valid() && Now().pc == Idle
      modifies `trace, `acts, `maxRowid, `published, `answers, `used, `settled,
               store`outbound, store`idempotency, store`events, store`commits, store`queries
      ensures Valid() && old(trace) <= trace && Now().pc == Idle
      ensures Asked(store.queries, LoadingFlight) == Asked(old(store.queries), LoadingFlight) + 1
      ensures Asked(store.queries, LoadingQueue) == Asked(old(store.queries), LoadingQueue)
    {
      var inflight := RecoverInflight();
    }

    /** One turn of `run`: a drain, and a recovery if the wait for a wake-up then runs out. */
    method Turn(jobs: nat)
      requires Valid() && Now().pc == Idle
      modifies `trace, `acts, `maxRowid, `published, `answers, `used, `settled, `timeouts,
               store`outbound, store`idempotency, store`events, store`commits, store`queries
      ensures Valid() && old(trace) <= trace && Now().pc == Idle
      ensures Asked(store.queries, LoadingFlight) == Asked(old(store.queries), LoadingFlight) + timeouts - old(timeouts)
      ensures Asked(store.queries, LoadingQueue) >= Asked(old(store.queries), LoadingQueue) + if jobs > 0 then 1 else 0
    {
      var drained, claims := DrainAll(jobs);
      if drained {
        var woken := Wake();
        if !woken {
          RecoverNow();
        }
      }
    }

    /** `run`, for any number of turns: recovers once at its start and once for every time the wait
        for a wake-up runs out, and drains the queue in every turn. */
    method Run(turns: nat, jobs: nat)
      requires Valid() && Now().pc == Idle
      modifies `trace, `acts, `maxRowid, `published, `answers, `used, `settled, `timeouts,
               store`outbound, store`idempotency, store`events, store`commits, store`queries
      ensures Valid() && old(trace) <= trace && Now().pc == Idle
      ensures Asked(store.queries, LoadingFlight)
           == Asked(old(store.queries), LoadingFlight) + 1 + timeouts - old(timeouts)
      ensures jobs > 0 ==> Asked(store.queries, LoadingQueue) >= Asked(old(store.queries), LoadingQueue) + turns
    {
      RecoverNow();
      for turn := 0 to turns
        invariant Valid() && old(trace) <= trace && Now().pc == Idle
        invariant Asked(store.queries, LoadingFlight)
               == Asked(old(store.queries), LoadingFlight) + 1 + timeouts - old(timeouts)
        invariant jobs > 0 ==> Asked(store.queries, LoadingQueue) >= Asked(old(store.queries), LoadingQueue) + turn
      {
        Turn(jobs);
      }
    }
  }

  /** How often a query was asked. */
  ghost function Asked(outcomes: seq<Outcome>, operation: Operation): nat {
    multiset(outcomes)[Outcome(operation, true)] + multiset(outcomes)[Outcome(operation, false)]
  }

  lemma FailuresGrow(a: seq<Outcome>, b: seq<Outcome>, operation: Operation)
    requires a <= b
    ensures Failures(b, operation) >= Failures(a, operation)
  {
    assert b == a + b[|a|..];
  }

  /** One more query, and what the selection makes of it. */
  lemma OneMoreAttempt(chat: map<int, string>, before: seq<Answer>, rows: Option<seq<CandidateRow>>, send: DurableSend,
                       last: bool, outcome: ResolveAttempt)
    requires AllPending(before, send) && |before| < RESOLVE_ATTEMPTS && (last <==> |before| + 1 == RESOLVE_ATTEMPTS)
    requires rows.Some? ==> Candidates(chat, send.preRowid, rows.value)
    requires outcome == if rows.None? then Ambiguous(0) else SelectCandidate(rows.value, send.job.text, send.job.target, last)
    ensures var asked := before + [Rows(send.preRowid, rows)];
            if outcome.Pending? && !last then AllPending(asked, send) else Concludes(asked, send, Verdict(outcome))
    ensures Verdict(outcome).Some? ==> InChat(chat, send.preRowid, Verdict(outcome).value)
  {
    var asked := before + [Rows(send.preRowid, rows)];
    assert asked[..|asked| - 1] == before;
    if outcome.Unique? {
      SelectedIsACandidate(chat, send.preRowid, rows.value, send.job.text, send.job.target, last);
    }
  }

  /** A run and one step more. */
  lemma RunExtends(sha: Digest, ws: seq<World>, acts: seq<Action>, a: Action, next: World)
    requires IsRun(sha, ws, acts) && Enabled(ws[|acts|], a) && next == Apply(sha, ws[|acts|], a)
    ensures IsRun(sha, ws + [next], acts + [a])
    ensures Claims(acts + [a]) == Claims(acts) + if a == Claim(false) then 1 else 0
  {
    assert (acts + [a])[..|acts|] == acts;
    var ws', acts' := ws + [next], acts + [a];
    forall i | 0 <= i < |acts'| ensures Enabled(ws'[i], acts'[i]) && ws'[i + 1] == Apply(sha, ws'[i], acts'[i]) {
      if i < |acts| { assert ws'[i] == ws[i] && ws'[i + 1] == ws[i + 1] && acts'[i] == acts[i]; }
    }
  }

  /** The row of a claimed send keeps the watermark of the claim, and its mark if it has one. */
  lemma ClaimRemembered(sha: Digest, ws: seq<World>, acts: seq<Action>, i: nat, j: nat, job: SendJob, pre: int)
    requires IsRun(sha, ws, acts) && i <= j < |ws| && ws[i].pc == Claimed(job, pre)
    ensures PreIs(ws[j].db.outbound, job, pre)
    ensures job.messageId in ws[i].marks ==> job.messageId in ws[j].marks
  {
    RunInv(sha, ws, acts, i);
    RunEvolves(sha, ws, acts, i, j);
    PreStays(ws[i].db.outbound, ws[j].db.outbound, job, pre);
    if job.messageId in ws[i].marks { Watermark.MarkPersists(sha, ws, acts, i, j, job.messageId); }
  }

  lemma PreStays(rows: seq<OutboundRow>, rows': seq<OutboundRow>, job: SendJob, pre: int)
    requires RowsEvolve(rows, rows') && HasState(rows, job, Dispatching) && PreIs(rows, job, pre)
    ensures PreIs(rows', job, pre)
  {
    FindGrows(rows, rows', job.messageId);
  }

  /** What the candidate query may return: at most 25 of the rows above the watermark. */
  ghost predicate Candidates(chat: map<int, string>, pre: int, rows: seq<CandidateRow>) {
    |rows| <= 25
    && forall k :: 0 <= k < |rows| ==>
         rows[k].rowid in chat && chat[rows[k].rowid] == rows[k].guid && rows[k].rowid > pre
  }

  lemma ClaimStep(sha: Digest, w: World, job: SendJob, pre: int, r: Result<bool, StoreError>, db': Db)
    requires Inv(w) && w.pc.Captured? && w.pc.job == job && w.pc.pre == pre
    requires if r.Failure? then db' == w.db else (db', r.value) == MarkDispatching(w.db, job.messageId, pre)
    ensures r.Success? ==> r.value
    ensures var w' := Apply(sha, w, Claim(r.Failure?));
            w'.db == db' && w'.pc == if r.Success? then Claimed(job, pre) else Idle
  {
    assert HasState(w.db.outbound, job, Waiting);
  }

  /** Each row is queued or was claimed once. */
  lemma Conserved(sha: Digest, ws: seq<World>, acts: seq<Action>)
    requires IsRun(sha, ws, acts)
    ensures var db := ws[|acts|].db;
            && QueueLength(db.outbound) + Claims(acts) == |db.outbound|
            && (NextQueued(db) == None <==> QueueLength(db.outbound) == 0)
  {
    QueueConserved(sha, ws, acts, |acts|);
    assert acts[..|acts|] == acts;
    RunInv(sha, ws, acts, |acts|);
    QueueEmpty(ws[|acts|].db);
  }

  lemma QueueEmpty(db: Db)
    requires TableOk(db.outbound)
    ensures NextQueued(db) == None <==> QueueLength(db.outbound) == 0
  {
    NextQueuedExactly(db);
    LengthZero(db.outbound);
  }

  lemma BindStep(sha: Digest, w: World, row: ResolvedRow, todo: seq<DurableSend>, fault: bool, now: string, db': Db, bound: bool)
    requires w.pc == Found(row, todo) && todo != [] && (fault ==> db' == w.db && !bound)
    requires !fault ==> (db', bound) == BindAndRecordSent(w.db, todo[0].job.messageId, row.rowid, row.guid, row.chatId, now)
    ensures !bound ==> db' == w.db
    ensures Enabled(w, Bind(fault, now)) && Apply(sha, w, Bind(fault, now)) == w.(db := db', pc := NextPc(todo[1..]))
  {
  }

  lemma SelectedIsACandidate(chat: map<int, string>, pre: int, rows: seq<CandidateRow>, text: string, target: SendTarget,
                             last: bool)
    requires Candidates(chat, pre, rows) && SelectCandidate(rows, text, target, last).Unique?
    ensures var row := SelectCandidate(rows, text, target, last).row;
            row.rowid in chat && chat[row.rowid] == row.guid && row.rowid > pre
  {
    var x := SelectedIsPicked(rows, text, target, last);
    assert x in rows by {
      if !(last && rows == [x]) { assert x in multiset(rows); }
    }
  }
}
