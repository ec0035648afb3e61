/** How the failed attempts at a pending message are counted: once for each saved pass, until
    the ninetieth quarantines it. */
module Quarantine {
  import opened Wrappers
  import opened Model
  import opened InboundEvent
  import opened Receive
  import opened InboundCapture
  import opened Duplication

  /** `q` is the entry `p` after one more failed attempt: counted, up to the top of the counter,
      with an error to show, and quarantined from the ninetieth on; all else is as it was. */
  predicate OnceMore(p: PendingInbound, q: PendingInbound) {
    && q.guid == p.guid && q.rowid == p.rowid && q.firstSeenAt == p.firstSeenAt
    && q.attempts == (if p.attempts == 0xFFFF_FFFF then p.attempts else p.attempts + 1)
    && q.lastError.Some?
    && (q.quarantinedAt.Some? <==> q.attempts >= 90)
    && (p.quarantinedAt.Some? ==> q.quarantinedAt == p.quarantinedAt)
  }

  /** An entry just captured. */
  predicate Fresh(q: PendingInbound, rowid: int) {
    q.rowid == rowid && q.attempts == 0 && q.lastError.Some? && q.quarantinedAt == None
  }

  predicate CountOk(p: PendingInbound) {
    p.attempts <= 0xFFFF_FFFF && (p.quarantinedAt.Some? <==> p.attempts >= 90)
  }

  function Guids(todo: seq<PendingInbound>): set<string> {
    set p | p in todo :: p.guid
  }

  /** Where an entry of a pass comes from: untouched while it waits its turn, then tried once. */
  ghost predicate Comes(start: seq<PendingInbound>, q: PendingInbound, waits: bool) {
    exists p :: p in start && if waits then q == p else OnceMore(p, q)
  }

  ghost predicate Passed(start: seq<PendingInbound>, next: seq<PendingInbound>, left: set<string>) {
    forall q :: q in next ==> Comes(start, q, q.guid in left)
  }

  /** A scan adds at most the row it moves over. */
  ghost predicate AddsOne(start: seq<PendingInbound>, next: State) {
    next.pending == start
    || (|next.pending| == |start| + 1 && next.pending == start + [next.pending[|start|]] && Fresh(next.pending[|start|], next.lastSeen)
        && !HasPending(start, next.pending[|start|].guid))
  }

  ghost predicate PassOk(w: World) {
    match w.pc
    case Retry(todo, next) => Passed(w.mem.pending, next.pending, Guids(todo))
    case RetryWait(p, _, todo, next) => Passed(w.mem.pending, next.pending, Guids(todo) + {p.guid})
    case ScanSave(next, _, _) => AddsOne(w.mem.pending, next)
    case _ => true
  }

  lemma {:induction false} BumpExactly(pending: seq<PendingInbound>, guid: string, reason: string, now: string, q: PendingInbound)
    requires DistinctPending(pending) && q in Bump(pending, guid, reason, now)
    ensures if q.guid == guid then exists p :: p in pending && p.guid == guid && q == Bumped(p, reason, now) else q in pending
  {
    if pending != [] {
      assert pending == [pending[0]] + pending[1..];
      if pending[0].guid == guid {
        if q != Bumped(pending[0], reason, now) {
          assert q in pending[1..];
          var k :| 0 < k < |pending| && pending[k] == q;
        }
      } else if q != pending[0] {
        BumpExactly(pending[1..], guid, reason, now, q);
      }
    }
  }

  /** A failed attempt takes the entry off those that wait. */
  lemma FailurePasses(start: seq<PendingInbound>, next: State, p: PendingInbound, left: set<string>, reason: string, now: string)
    requires DistinctPending(next.pending) && Passed(start, next.pending, left + {p.guid}) && p.guid !in left
    requires forall q :: q in start ==> CountOk(q)
    ensures Passed(start, AfterFailure(next, p, reason, now).pending, left)
  {
    forall q | q in AfterFailure(next, p, reason, now).pending ensures Comes(start, q, q.guid in left) {
      BumpExactly(next.pending, p.guid, reason, now, q);
      if q.guid == p.guid {
        var was :| was in next.pending && was.guid == p.guid && q == Bumped(was, reason, now);
        assert Comes(start, was, true);
        assert OnceMore(was, q);
      } else {
        assert Comes(start, q, q.guid in left + {p.guid});
      }
    }
  }

  lemma SuccessPasses(start: seq<PendingInbound>, next: seq<PendingInbound>, guid: string, left: set<string>)
    requires Passed(start, next, left + {guid})
    ensures Passed(start, Without(next, guid), left)
  {
    forall q | q in Without(next, guid) ensures Comes(start, q, q.guid in left) {
      assert Comes(start, q, q.guid in left + {guid});
    }
  }

  lemma HeadGuid(todo: seq<PendingInbound>)
    requires todo != [] && DistinctPending(todo)
    ensures Guids(todo) == Guids(todo[1..]) + {todo[0].guid} && todo[0].guid !in Guids(todo[1..])
  {
    assert todo == [todo[0]] + todo[1..];
  }

  lemma CountsOk(w: World, st: State)
    requires StateOk(w, st)
    ensures forall q :: q in st.pending ==> CountOk(q)
  {
    forall q | q in st.pending ensures CountOk(q) {
      var k :| 0 <= k < |st.pending| && st.pending[k] == q;
    }
  }

  lemma RetryRowPasses(w: World, readable: bool, closed: bool, timestamp: string, now: string, w': World)
    requires Inv(w) && TodoPending(w) && PassOk(w) && w.pc.Retry? && w.pc.todo != []
    requires w' == ApplyRetryRow(w, readable, closed, timestamp, now)
    ensures PassOk(w')
  {
    var p, next := w.pc.todo[0], w.pc.next;
    HeadGuid(w.pc.todo);
    CountsOk(w, w.mem);
    match RetryOutcome(w, p, readable, closed, timestamp)
    case Failure(reason) => FailurePasses(w.mem.pending, next, p, Guids(w.pc.todo[1..]), reason, now);
    case Success(_) =>
  }

  lemma RetryAnswerPasses(w: World, a: Action, w': World)
    requires Inv(w) && TodoPending(w) && PassOk(w) && Enabled(w, a) && (a.RetryAck? || a.RetryTimeout?) && w' == Apply(w, a)
    ensures PassOk(w')
  {
    var p, todo, next := w.pc.pending, w.pc.todo, w.pc.next;
    CountsOk(w, w.mem);
    if w.pc.ack == Some(true) {
      SuccessPasses(w.mem.pending, next.pending, p.guid, Guids(todo));
    } else {
      FailurePasses(w.mem.pending, next, p, Guids(todo), "journal failed", a.now);
    }
  }

  lemma BeginPasses(w: World, w': World)
    requires w.pc.Idle? && w' == Apply(w, BeginRetry)
    ensures PassOk(w')
  {
    forall q | q in w.mem.pending ensures Comes(w.mem.pending, q, q.guid in Guids(w.mem.pending)) {
    }
  }

  lemma ScanRowAdds(w: World, closed: bool, timestamp: string, now: string, w': World)
    requires w.pc.Scan? && w.pc.rows != [] && w' == ApplyScanRow(w, closed, timestamp, now)
    ensures PassOk(w')
  {
  }

  lemma CommitPasses(w: World, write: Write, w': World)
    requires PassOk(w) && w.sink != [] && w' == ApplyCommit(w, write)
    ensures PassOk(w')
  {
  }

  lemma QuietPasses(w: World, a: Action, w': World)
    requires PassOk(w) && Enabled(w, a) && w' == Apply(w, a)
    requires !ChangesChat(a) && !a.Commit? && !a.BeginRetry? && !a.RetryRow? && !a.RetryAck? && !a.RetryTimeout? && !a.ScanRow?
    ensures PassOk(w')
  {
  }

  lemma StepPasses(w: World, a: Action, w': World)
    requires Inv(w) && TodoPending(w) && PassOk(w) && Enabled(w, a) && w' == Apply(w, a)
    ensures PassOk(w')
  {
    if ChangesChat(a) {
      ChatIsForeign(w, a);
    } else if a.Commit? {
      CommitPasses(w, a.write, w');
    } else if a.BeginRetry? {
      BeginPasses(w, w');
    } else if a.RetryRow? {
      RetryRowPasses(w, a.readable, a.closed, a.timestamp, a.now, w');
    } else if a.RetryAck? || a.RetryTimeout? {
      RetryAnswerPasses(w, a, w');
    } else if a.ScanRow? {
      ScanRowAdds(w, a.closed, a.timestamp, a.now, w');
    } else {
      QuietPasses(w, a, w');
    }
  }

  // The saved list

  /** The worker's list is the saved one. */
  predicate InStep(w: World) {
    !w.pc.Down? ==> w.mem.pending == Saved(w).pending
  }

  /** What one step does to the saved list: a saved pass leaves nothing in it but entries tried
      once more; any other save adds at most one fresh entry; nothing else touches it. */
  ghost predicate Counts(w: World, a: Action, w': World) {
    if a == RetrySave(true) then forall q :: q in Saved(w').pending ==> exists p :: p in Saved(w).pending && OnceMore(p, q)
    else Saved(w').pending == Saved(w).pending
         || (a == Save(true) && AddsOne(Saved(w).pending, Saved(w')) && Saved(w').lastSeen > Saved(w).lastSeen)
  }

  lemma StepCounts(w: World, a: Action, w': World)
    requires Inv(w) && PassOk(w) && InStep(w) && Enabled(w, a) && w' == Apply(w, a)
    ensures Counts(w, a, w') && InStep(w')
  {
    if a.RetrySave? {
      SaveCounts(w, a.saved, w');
    } else if !a.Save? {
      OthersCount(w, a, w');
    }
  }

  lemma SaveCounts(w: World, saved: bool, w': World)
    requires PassOk(w) && InStep(w) && Enabled(w, RetrySave(saved)) && w' == Apply(w, RetrySave(saved))
    ensures Counts(w, RetrySave(saved), w') && InStep(w')
  {
    if saved {
      forall q | q in Saved(w').pending ensures exists p :: p in Saved(w).pending && OnceMore(p, q) {
        assert Comes(w.mem.pending, q, false);
      }
    }
  }

  lemma OthersCount(w: World, a: Action, w': World)
    requires InStep(w) && Enabled(w, a) && w' == Apply(w, a) && !a.RetrySave? && !a.Save?
    ensures Saved(w').pending == Saved(w).pending && InStep(w')
  {
    if ChangesChat(a) {
      ChatIsForeign(w, a);
    } else if !a.Start? {
      OnlySavesTouchDisk(w, a);
      ListStays(w, a, w');
    }
  }

  lemma ListStays(w: World, a: Action, w': World)
    requires Enabled(w, a) && w' == Apply(w, a) && !a.RetrySave? && !a.Save? && !a.Start?
    ensures !w'.pc.Down? ==> !w.pc.Down? && w'.mem.pending == w.mem.pending
  {
  }

  lemma PassAt(ws: seq<World>, acts: seq<Action>, i: nat)
    requires IsRun(ws, acts) && i < |acts| && TodoPending(ws[i]) && PassOk(ws[i]) && InStep(ws[i])
    ensures TodoPending(ws[i + 1]) && PassOk(ws[i + 1]) && InStep(ws[i + 1]) && Counts(ws[i], acts[i], ws[i + 1])
  {
    RunInv(ws, acts, i);
    StepTodo(ws[i], acts[i]);
    StepPasses(ws[i], acts[i], ws[i + 1]);
    StepCounts(ws[i], acts[i], ws[i + 1]);
  }

  lemma RunShape(ws: seq<World>, acts: seq<Action>)
    requires IsRun(ws, acts)
    ensures |ws| == |acts| + 1 && Saved(ws[0]).pending == []
  {
  }

  lemma {:induction false} RunPasses(ws: seq<World>, acts: seq<Action>, i: nat)
    requires IsRun(ws, acts) && i < |ws|
    ensures Inv(ws[i]) && TodoPending(ws[i]) && PassOk(ws[i]) && InStep(ws[i])
  {
    RunInv(ws, acts, i);
    RunShape(ws, acts);
    if i == 0 {
      assert ws[0].pc.Down?;
    } else {
      hide IsRun;
      RunPasses(ws, acts, i - 1);
      PassAt(ws, acts, i - 1);
    }
  }

  // Over whole runs

  /** The passes that were saved. */
  function SavedPasses(acts: seq<Action>, i: nat, j: nat): nat
    requires i <= j <= |acts|
  {
    if i == j then 0 else SavedPasses(acts, i, j - 1) + if acts[j - 1] == RetrySave(true) then 1 else 0
  }

  function Capped(n: nat): nat {
    if n > 0xFFFF_FFFF then 0xFFFF_FFFF else n
  }

  /** `q` is the entry `p` after so many failed attempts. */
  predicate After(p: PendingInbound, n: nat, q: PendingInbound) {
    q.guid == p.guid && q.rowid == p.rowid && q.firstSeenAt == p.firstSeenAt && q.attempts == Capped(p.attempts + n)
    && (p.quarantinedAt.Some? ==> q.quarantinedAt == p.quarantinedAt)
  }

  lemma OneAfter(p: PendingInbound, n: nat, m: PendingInbound, q: PendingInbound)
    requires After(p, n, m) && OnceMore(m, q) && p.attempts <= 0xFFFF_FFFF
    ensures After(p, n + 1, q)
  {
  }

  /** An entry of the saved list was there before the step, or is fresh and above the watermark. */
  lemma StepBack(ws: seq<World>, acts: seq<Action>, i: nat, q: PendingInbound) returns (p: Option<PendingInbound>)
    requires IsRun(ws, acts) && i < |acts| && q in Saved(ws[i + 1]).pending
    ensures p.Some? ==>
              p.value in Saved(ws[i]).pending && if acts[i] == RetrySave(true) then OnceMore(p.value, q) else p.value == q
    ensures p.None? ==> Fresh(q, q.rowid) && q.rowid > Saved(ws[i]).lastSeen && acts[i] == Save(true)
  {
    RunPasses(ws, acts, i);
    PassAt(ws, acts, i);
    var before, after := Saved(ws[i]), Saved(ws[i + 1]);
    if acts[i] == RetrySave(true) {
      var was :| was in before.pending && OnceMore(was, q);
      return Some(was);
    }
    if after.pending == before.pending || q in before.pending {
      return Some(q);
    }
    assert q == after.pending[|before.pending|];
    return None;
  }

  /** Guids and ROWIDs identify each other among the pending. */
  lemma SameRowid(ws: seq<World>, acts: seq<Action>, i: nat, j: nat, p: PendingInbound, q: PendingInbound)
    requires IsRun(ws, acts) && i <= j < |ws|
    requires p in Saved(ws[i]).pending && q in Saved(ws[j]).pending && q.guid == p.guid
    ensures q.rowid == p.rowid <= Saved(ws[i]).lastSeen && p.attempts <= 0xFFFF_FFFF
  {
    RunInv(ws, acts, i);
    RunInv(ws, acts, j);
    IdsGrow(ws, acts, i, j);
    assert EntryOk(ws[i], Saved(ws[i]), p) by { var k :| 0 <= k < |Saved(ws[i]).pending| && Saved(ws[i]).pending[k] == p; }
    assert EntryOk(ws[j], Saved(ws[j]), q) by { var k :| 0 <= k < |Saved(ws[j]).pending| && Saved(ws[j]).pending[k] == q; }
  }

  predicate IdsKept(ids: map<int, Identity>, ids': map<int, Identity>) {
    forall r :: r in ids ==> r in ids' && ids'[r] == ids[r]
  }

  lemma KeptTwice(a: map<int, Identity>, b: map<int, Identity>, c: map<int, Identity>)
    requires IdsKept(a, b) && IdsKept(b, c)
    ensures IdsKept(a, c)
  {
  }

  lemma IdsKeptAt(ws: seq<World>, acts: seq<Action>, i: nat)
    requires IsRun(ws, acts) && i < |acts|
    ensures IdsKept(ws[i].ids, ws[i + 1].ids)
  {
    RunInv(ws, acts, i);
    StepGrows(ws[i], acts[i]);
  }

  lemma {:induction false} IdsChain(ws: seq<World>, i: nat, j: nat)
    requires i <= j < |ws| && forall k :: i <= k < j ==> IdsKept(ws[k].ids, ws[k + 1].ids)
    ensures IdsKept(ws[i].ids, ws[j].ids)
  {
    if i < j {
      IdsChain(ws, i, j - 1);
      KeptTwice(ws[i].ids, ws[j - 1].ids, ws[j].ids);
    }
  }

  lemma IdsGrow(ws: seq<World>, acts: seq<Action>, i: nat, j: nat)
    requires IsRun(ws, acts) && i <= j < |ws|
    ensures IdsKept(ws[i].ids, ws[j].ids)
  {
    forall k | i <= k < j ensures IdsKept(ws[k].ids, ws[k + 1].ids) {
      IdsKeptAt(ws, acts, k);
    }
    IdsChain(ws, i, j);
  }

  /** A message that is pending in two saved states was tried, between them, exactly once for each
      pass that was saved, whatever crashed in between. */
  lemma {:induction false} AttemptsExactly(ws: seq<World>, acts: seq<Action>, i: nat, j: nat, p: PendingInbound, q: PendingInbound)
    requires IsRun(ws, acts) && i <= j < |ws|
    requires p in Saved(ws[i]).pending && q in Saved(ws[j]).pending && q.guid == p.guid
    ensures After(p, SavedPasses(acts, i, j), q)
  {
    hide IsRun;
    RunShape(ws, acts);
    SameRowid(ws, acts, i, j, p, q);
    if i == j {
      SameEntry(ws, acts, i, p, q);
    } else {
      var was := StepBack(ws, acts, j - 1, q);
      if was.None? {
        WatermarkNeverDecreases(ws, acts, i, j - 1);
        assert false;
      } else {
        AttemptsExactly(ws, acts, i, j - 1, p, was.value);
        if acts[j - 1] == RetrySave(true) { OneAfter(p, SavedPasses(acts, i, j - 1), was.value, q); }
      }
    }
  }

  lemma SameEntry(ws: seq<World>, acts: seq<Action>, i: nat, p: PendingInbound, q: PendingInbound)
    requires IsRun(ws, acts) && i < |ws| && p in Saved(ws[i]).pending && q in Saved(ws[i]).pending && q.guid == p.guid
    ensures q == p
  {
    RunInv(ws, acts, i);
    var pending := Saved(ws[i]).pending;
    var k :| 0 <= k < |pending| && pending[k] == p;
    var l :| 0 <= l < |pending| && pending[l] == q;
    assert k == l;
  }

  /** Every pending message was captured fresh at some saved scan step. */
  lemma {:induction false} CapturedFresh(ws: seq<World>, acts: seq<Action>, j: nat, q: PendingInbound)
    returns (i: nat, p: PendingInbound)
    requires IsRun(ws, acts) && j < |ws| && q in Saved(ws[j]).pending
    ensures 0 < i <= j && acts[i - 1] == Save(true) && p in Saved(ws[i]).pending && p.guid == q.guid && Fresh(p, q.rowid)
  {
    hide IsRun;
    RunShape(ws, acts);
    var was := StepBack(ws, acts, j - 1, q);
    if was.None? {
      i, p := j, q;
    } else {
      i, p := CapturedFresh(ws, acts, j - 1, was.value);
    }
  }

  /** So a pending message was tried once for each pass saved since it was captured, and it is
      quarantined exactly when there were at least ninety of them. */
  lemma QuarantinedExactly(ws: seq<World>, acts: seq<Action>, j: nat, q: PendingInbound) returns (i: nat)
    requires IsRun(ws, acts) && j < |ws| && q in Saved(ws[j]).pending
    ensures 0 < i <= j && acts[i - 1] == Save(true)
    ensures q.attempts == Capped(SavedPasses(acts, i, j))
    ensures q.quarantinedAt.Some? <==> SavedPasses(acts, i, j) >= 90
  {
    var p;
    i, p := CapturedFresh(ws, acts, j, q);
    AttemptsExactly(ws, acts, i, j, p, q);
    RunInv(ws, acts, j);
    CountsOk(ws[j], Saved(ws[j]));
  }
}
