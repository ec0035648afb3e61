/** Re-polling the status of sent messages: each tracked guid is polled a bounded number of
    times, and what is not in chat.db is kept. */
module Recheck {
  import opened Wrappers
  import opened Model
  import opened InboundEvent

  const MAX_RECHECKS: nat := 150

  /** What the active query returns for one tracked guid. */
  datatype StatusRow = StatusRow(guid: string, isDelivered: int, isRead: int, dateDelivered: int, dateRead: int)

  /** `active`: the tracked guids, each with the number of rechecks that returned it. */
  type Tracked = map<string, nat>

  function Polled(row: StatusRow): Status {
    StatusFlags(row.isDelivered, row.isRead, row.dateDelivered, row.dateRead)
  }

  /** `entry(guid).or_insert(0)`. */
  function Track(active: Tracked, guid: string): Tracked {
    if guid in active then active else active[guid := 0]
  }

  /** One returned row: count it, and drop the guid when it is read or used up. */
  function Poll(active: Tracked, row: StatusRow): Tracked {
    var count := Track(active, row.guid)[row.guid] + 1;
    if Polled(row) == Read || count >= MAX_RECHECKS then active - {row.guid} else active[row.guid := count]
  }

  function PollAll(active: Tracked, rows: seq<StatusRow>): Tracked {
    if rows == [] then active else Poll(PollAll(active, rows[..|rows| - 1]), rows[|rows| - 1])
  }

  /** The answer of the active query: tracked guids, each at most once, since chat.db holds
      a guid at most once. */
  ghost predicate Answer(active: Tracked, rows: seq<StatusRow>) {
    (forall k :: 0 <= k < |rows| ==> rows[k].guid in active)
    && forall k, l :: 0 <= k < l < |rows| ==> rows[k].guid != rows[l].guid
  }

  /** The loop of `recheck_active` over the rows returned. */
  method PollRows(active: Tracked, rows: seq<StatusRow>) returns (tracked: Tracked, observed: seq<(string, Status)>)
    ensures tracked == PollAll(active, rows)
    ensures |observed| == |rows| && forall k :: 0 <= k < |rows| ==> observed[k] == (rows[k].guid, Polled(rows[k]))
  {
    tracked, observed := active, [];
    for i := 0 to |rows|
      invariant tracked == PollAll(active, rows[..i])
      invariant |observed| == i && forall k :: 0 <= k < i ==> observed[k] == (rows[k].guid, Polled(rows[k]))
    {
      var row := rows[i];
      var status := Polled(row);
      observed := observed + [(row.guid, status)];
      assert rows[..i + 1][..i] == rows[..i];
      tracked := Track(tracked, row.guid);
      var count := tracked[row.guid] + 1;
      tracked := tracked[row.guid := count];
      if status == Read || count >= MAX_RECHECKS {
        tracked := tracked - {row.guid};
      }
      assert tracked == Poll(PollAll(active, rows[..i]), row);
    }
    assert rows[..|rows|] == rows;
  }

  ghost predicate Bounded(active: Tracked) {
    forall g :: g in active ==> active[g] < MAX_RECHECKS
  }

  /** Between calls every count is below the cap, whatever is tracked and polled. */
  lemma {:induction false} CountsStayBelowCap(active: Tracked, guid: string, rows: seq<StatusRow>)
    requires Bounded(active)
    ensures Bounded(Track(active, guid)) && Bounded(PollAll(active, rows))
  {
    if rows != [] {
      CountsStayBelowCap(active, guid, rows[..|rows| - 1]);
    }
  }

  lemma {:induction false} PollKeeps(active: Tracked, rows: seq<StatusRow>, g: string)
    requires forall k :: 0 <= k < |rows| ==> rows[k].guid != g
    ensures g in PollAll(active, rows) <==> g in active
    ensures g in active ==> PollAll(active, rows)[g] == active[g]
  {
    if rows != [] {
      PollKeeps(active, rows[..|rows| - 1], g);
    }
  }

  lemma {:induction false} PollCounts(active: Tracked, rows: seq<StatusRow>, k: nat)
    requires Answer(active, rows) && k < |rows|
    ensures var g, after := rows[k].guid, PollAll(active, rows);
            && (g !in after <==> Polled(rows[k]) == Read || active[g] + 1 >= MAX_RECHECKS)
            && (g in after ==> after[g] == active[g] + 1)
  {
    var n := |rows| - 1;
    if k == n {
      PollKeeps(active, rows[..n], rows[k].guid);
    } else {
      assert rows[..n][k] == rows[k];
      PollCounts(active, rows[..n], k);
    }
  }

  /** What one recheck does to each guid: the guids it did not return keep their count; a
      returned one is counted once, and dropped exactly when read or used up. */
  lemma PollExactly(active: Tracked, rows: seq<StatusRow>)
    requires Answer(active, rows)
    ensures forall g :: (forall k :: 0 <= k < |rows| ==> rows[k].guid != g) ==>
              (g in PollAll(active, rows) <==> g in active)
              && (g in active ==> PollAll(active, rows)[g] == active[g])
    ensures forall k :: 0 <= k < |rows| ==>
              var g, after := rows[k].guid, PollAll(active, rows);
              && (g !in after <==> Polled(rows[k]) == Read || active[g] + 1 >= MAX_RECHECKS)
              && (g in after ==> after[g] == active[g] + 1)
  {
    forall g | forall k :: 0 <= k < |rows| ==> rows[k].guid != g
      ensures g in PollAll(active, rows) <==> g in active
      ensures g in active ==> PollAll(active, rows)[g] == active[g]
    {
      PollKeeps(active, rows, g);
    }
    forall k | 0 <= k < |rows|
      ensures var g, after := rows[k].guid, PollAll(active, rows);
              && (g !in after <==> Polled(rows[k]) == Read || active[g] + 1 >= MAX_RECHECKS)
              && (g in after ==> after[g] == active[g] + 1)
    {
      PollCounts(active, rows, k);
    }
  }

  // The polls that are left

  /** The sum of the polls left over some tracked guids. */
  ghost function Left(active: Tracked, guids: set<string>): int
    requires guids <= active.Keys
  {
    if guids == {} then 0 else
      var g :| g in guids;
      MAX_RECHECKS - active[g] + Left(active, guids - {g})
  }

  /** The polls left over the tracked guids that chat.db holds. */
  ghost function PollsLeft(active: Tracked, present: set<string>): int {
    Left(active, active.Keys * present)
  }

  lemma {:induction false} LeftSplit(active: Tracked, guids: set<string>, g: string)
    requires guids <= active.Keys && g in guids
    ensures Left(active, guids) == MAX_RECHECKS - active[g] + Left(active, guids - {g})
    decreases guids
  {
    var c :| c in guids && Left(active, guids) == MAX_RECHECKS - active[c] + Left(active, guids - {c});
    if c != g {
      LeftSplit(active, guids - {c}, g);
      LeftSplit(active, guids - {g}, c);
      assert guids - {c} - {g} == guids - {g} - {c};
    }
  }

  lemma {:induction false} LeftAgrees(active: Tracked, active': Tracked, guids: set<string>)
    requires guids <= active.Keys && guids <= active'.Keys
    requires forall g :: g in guids ==> active[g] == active'[g]
    ensures Left(active, guids) == Left(active', guids)
    decreases guids
  {
    if guids != {} {
      var g :| g in guids;
      LeftSplit(active, guids, g);
      LeftSplit(active', guids, g);
      LeftAgrees(active, active', guids - {g});
    }
  }

  lemma PollSpends(active: Tracked, row: StatusRow, present: set<string>)
    requires Bounded(active) && row.guid in active && row.guid in present
    ensures PollsLeft(Poll(active, row), present) < PollsLeft(active, present)
  {
    var g, guids, after := row.guid, active.Keys * present, Poll(active, row);
    LeftSplit(active, guids, g);
    LeftAgrees(active, after, guids - {g});
    if g in after {
      assert after.Keys * present == guids;
      LeftSplit(after, guids, g);
    } else {
      assert after.Keys * present == guids - {g};
    }
  }

  /** Each recheck that returns rows spends at least one poll per row. */
  lemma {:induction false} RecheckSpends(active: Tracked, rows: seq<StatusRow>, present: set<string>)
    requires Bounded(active) && Answer(active, rows)
    requires forall k :: 0 <= k < |rows| ==> rows[k].guid in present
    ensures PollsLeft(PollAll(active, rows), present) <= PollsLeft(active, present) - |rows|
  {
    if rows != [] {
      var n := |rows| - 1;
      var front := rows[..n];
      assert forall k :: 0 <= k < n ==> front[k] == rows[k];
      RecheckSpends(active, front, present);
      CountsStayBelowCap(active, "", front);
      PollKeeps(active, front, rows[n].guid);
      PollSpends(PollAll(active, front), rows[n], present);
    }
  }

  // Many rechecks

  function Rechecks(active: Tracked, answers: seq<seq<StatusRow>>): Tracked {
    if answers == [] then active else PollAll(Rechecks(active, answers[..|answers| - 1]), answers[|answers| - 1])
  }

  /** The recheck returned a row for exactly the tracked guids that chat.db holds. */
  ghost predicate Full(active: Tracked, rows: seq<StatusRow>, present: set<string>) {
    Answer(active, rows)
    && forall g :: g in active ==> (g in present <==> exists k :: 0 <= k < |rows| && rows[k].guid == g)
  }

  ghost predicate AllFull(active: Tracked, answers: seq<seq<StatusRow>>, present: set<string>) {
    forall i :: 0 <= i < |answers| ==> Full(Rechecks(active, answers[..i]), answers[i], present)
  }

  lemma {:induction false} CountsGrow(active: Tracked, answers: seq<seq<StatusRow>>, present: set<string>)
    requires Bounded(active) && AllFull(active, answers, present)
    ensures Bounded(Rechecks(active, answers))
    ensures forall g :: g in Rechecks(active, answers) ==> g in active
    ensures forall g :: g in Rechecks(active, answers) && g in present ==> Rechecks(active, answers)[g] >= |answers|
    ensures forall g :: g in active && g !in present ==>
              g in Rechecks(active, answers) && Rechecks(active, answers)[g] == active[g]
  {
    if answers != [] {
      var n := |answers| - 1;
      var front := answers[..n];
      assert forall i :: 0 <= i < n ==> front[i] == answers[i] && front[..i] == answers[..i];
      CountsGrow(active, front, present);
      var before := Rechecks(active, front);
      assert Full(before, answers[n], present);
      CountsStayBelowCap(before, "", answers[n]);
      PollExactly(before, answers[n]);
      forall g | g in PollAll(before, answers[n]) && g in present ensures PollAll(before, answers[n])[g] >= |answers| {
        var k :| 0 <= k < |answers[n]| && answers[n][k].guid == g;
      }
    }
  }

  /** With nothing newly tracked, 150 rechecks leave exactly the guids absent from chat.db,
      with the counts they had. */
  lemma RecheckTerminates(active: Tracked, answers: seq<seq<StatusRow>>, present: set<string>)
    requires Bounded(active) && |answers| >= MAX_RECHECKS && AllFull(active, answers, present)
    ensures Rechecks(active, answers) == active - present
  {
    CountsGrow(active, answers, present);
    var after := Rechecks(active, answers);
    assert forall g :: g in after <==> g in active && g !in present;
    assert after.Keys == (active - present).Keys;
  }
}
