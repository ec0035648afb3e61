/** A scan that meets no trouble reaches the highest ROWID it read. */
module ScanProgress {
  import opened Wrappers
  import opened Model
  import opened InboundEvent
  import opened Receive
  import opened InboundCapture
  import opened ReceiveWorker

  predicate Scanning(pc: Pc) {
    pc.Scan? || pc.ScanWait? || pc.ScanSave?
  }

  /** The ROWID the scan under way ends at, if nothing stops it. */
  function Goal(w: World): int
    requires Scanning(w.pc)
  {
    match w.pc
    case Scan(rows, _) => Reached(rows, w.mem.lastSeen)
    case ScanWait(row, _, rows, _) => Reached(rows, row.rowid)
    case ScanSave(next, rows, _) => Reached(rows, next.lastSeen)
  }

  /** The scan goes on towards the same ROWID. */
  predicate OnTheWay(w: World, w': World) {
    Scanning(w.pc) && Scanning(w'.pc) && !Refused(w'.pc) && Goal(w') == Goal(w)
  }

  lemma ForeignOnTheWay(w: World, w': World)
    requires Scanning(w.pc) && !Refused(w.pc) && Undisturbed(w, w') && w'.troubles == w.troubles
    ensures OnTheWay(w, w')
  {
  }

  /** The head of the snapshot is above the watermark, so it is never skipped. */
  lemma ScanRowOnTheWay(w: World, closed: bool, timestamp: string, now: string, w': World)
    requires w.pc.Scan? && w.pc.rows != [] && w.pc.rows[0].rowid > w.mem.lastSeen
    requires w' == ApplyScanRow(w, closed, timestamp, now) && w'.troubles == w.troubles
    ensures OnTheWay(w, w')
  {
  }

  lemma WorkerOnTheWay(w: World, a: Action, w': World)
    requires Enabled(w, a) && w' == Apply(w, a) && w'.troubles == w.troubles
    requires Scanning(w.pc) && !Refused(w.pc) && (a.ScanAck? || a.ScanTimeout? || a.Save? || a.EndScan?)
    ensures if a.EndScan? then w'.pc.Idle? && w'.mem.lastSeen == Goal(w) else OnTheWay(w, w')
  {
  }

  lemma StepOnTheWay(w: World, a: Action, w': World)
    requires Inv(w) && Enabled(w, a) && w' == Apply(w, a) && w'.troubles == w.troubles
    requires Scanning(w.pc) && !Refused(w.pc)
    ensures if a.EndScan? then w'.pc.Idle? && w'.mem.lastSeen == Goal(w) else OnTheWay(w, w')
  {
    if Foreign(a) {
      ForeignStep(w, a, w');
      ForeignOnTheWay(w, w');
    } else if a.ScanRow? {
      assert RowOk(w, w.pc.rows[0]);
      ScanRowOnTheWay(w, a.closed, a.timestamp, a.now, w');
    } else {
      TroubleOrScan(w, a, w');
      WorkerOnTheWay(w, a, w');
    }
  }

  lemma TroubleOrScan(w: World, a: Action, w': World)
    requires Enabled(w, a) && w' == Apply(w, a) && w'.troubles == w.troubles && Scanning(w.pc) && !Foreign(a) && !a.ScanRow?
    ensures a.ScanAck? || a.ScanTimeout? || a.Save? || a.EndScan?
  {
  }

  lemma RowTroubles(w: World, a: Action, w': World)
    requires Enabled(w, a) && w' == Apply(w, a) && (a.Commit? || a.RetryRow? || a.ScanRow?)
    ensures w'.troubles >= w.troubles
  {
  }

  lemma TroublesGrow(w: World, a: Action, w': World)
    requires Enabled(w, a) && w' == Apply(w, a)
    ensures w'.troubles >= w.troubles
  {
    if a.Commit? || a.RetryRow? || a.ScanRow? { RowTroubles(w, a, w'); }
  }

  ghost predicate BusyBetween(ws: seq<World>, i: nat, j: nat)
    requires j < |ws|
  {
    forall k :: i < k < j ==> !ws[k].pc.Idle?
  }

  lemma TroublesAt(ws: seq<World>, acts: seq<Action>, i: nat)
    requires IsRun(ws, acts) && i < |acts|
    ensures ws[i + 1].troubles >= ws[i].troubles
  {
    TroublesGrow(ws[i], acts[i], ws[i + 1]);
  }

  lemma {:induction false} Ordered(counts: seq<nat>, i: nat, j: nat)
    requires i <= j < |counts| && forall k :: 0 <= k < |counts| - 1 ==> counts[k] <= counts[k + 1]
    ensures counts[i] <= counts[j]
  {
    if i < j {
      Ordered(counts, i, j - 1);
      assert counts[j - 1] <= counts[j - 1 + 1];
    }
  }

  lemma TroublesSince(ws: seq<World>, acts: seq<Action>, i: nat, j: nat)
    requires IsRun(ws, acts) && i <= j < |ws|
    ensures ws[j].troubles >= ws[i].troubles
  {
    var counts := seq(|ws|, k requires 0 <= k < |ws| => ws[k].troubles);
    forall k | 0 <= k < |counts| - 1 ensures counts[k] <= counts[k + 1] {
      TroublesAt(ws, acts, k);
    }
    Ordered(counts, i, j);
  }

  /** Either the scan still heads for `goal`, or it is over and the watermark is there. */
  predicate Heading(w: World, goal: int) {
    if w.pc.Idle? then w.mem.lastSeen == goal else Scanning(w.pc) && !Refused(w.pc) && Goal(w) == goal
  }

  lemma BeginAt(ws: seq<World>, acts: seq<Action>, i: nat)
    requires IsRun(ws, acts) && i < |acts| && acts[i].BeginScan?
    ensures Heading(ws[i + 1], Reached(acts[i].rows, ws[i].mem.lastSeen))
  {
  }

  lemma StepAt(ws: seq<World>, acts: seq<Action>, i: nat, goal: int)
    requires IsRun(ws, acts) && i < |acts| && ws[i + 1].troubles == ws[i].troubles
    requires Heading(ws[i], goal) && !ws[i].pc.Idle?
    ensures Heading(ws[i + 1], goal)
  {
    RunInv(ws, acts, i);
    StepOnTheWay(ws[i], acts[i], ws[i + 1]);
  }

  ghost predicate Untroubled(ws: seq<World>, i: nat, j: nat)
    requires j < |ws|
  {
    forall k :: i <= k < j ==> ws[k + 1].troubles == ws[k].troubles
  }

  /** From i on, each step keeps the heading; so the heading is kept. */
  lemma {:induction false} HeadingKept(ws: seq<World>, i: nat, j: nat, goal: int)
    requires i <= j < |ws| && Heading(ws[i], goal)
    requires forall k :: i <= k < j ==> Heading(ws[k], goal) ==> Heading(ws[k + 1], goal)
    ensures Heading(ws[j], goal)
  {
    if i < j {
      HeadingKept(ws, i, j - 1, goal);
      assert Heading(ws[j - 1], goal) ==> Heading(ws[j - 1 + 1], goal);
    }
  }

  lemma StaysHeading(ws: seq<World>, acts: seq<Action>, i: nat, j: nat, goal: int)
    requires IsRun(ws, acts) && i <= j < |ws| && Heading(ws[i], goal) && Untroubled(ws, i, j)
    requires forall k :: i <= k < j ==> !ws[k].pc.Idle?
    ensures Heading(ws[j], goal)
  {
    forall k | i <= k < j ensures Heading(ws[k], goal) ==> Heading(ws[k + 1], goal) {
      if Heading(ws[k], goal) { StepAt(ws, acts, k, goal); }
    }
    HeadingKept(ws, i, j, goal);
  }

  lemma UntroubledBetween(ws: seq<World>, acts: seq<Action>, i: nat, j: nat)
    requires IsRun(ws, acts) && i <= j < |ws| && ws[j].troubles == ws[i].troubles
    ensures Untroubled(ws, i, j)
  {
    forall k | i <= k < j ensures ws[k + 1].troubles == ws[k].troubles {
      TroublesSince(ws, acts, i, k);
      TroublesAt(ws, acts, k);
      TroublesSince(ws, acts, k + 1, j);
    }
  }

  /** One scan, from its query at step i to the return to idle at step j, through any
      interleaving: if no query, journal write or save gave trouble, the watermark ends at the
      highest ROWID read, whatever the rows hold. */
  lemma ScanReachesHighest(ws: seq<World>, acts: seq<Action>, i: nat, j: nat)
    requires IsRun(ws, acts) && i < j < |ws| && acts[i].BeginScan? && BusyBetween(ws, i, j)
    requires ws[j].troubles == ws[i].troubles
    ensures Heading(ws[j], Reached(acts[i].rows, ws[i].mem.lastSeen))
  {
    UntroubledBetween(ws, acts, i, j);
    BeginAt(ws, acts, i);
    StaysHeading(ws, acts, i + 1, j, Reached(acts[i].rows, ws[i].mem.lastSeen));
  }
}
