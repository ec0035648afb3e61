/** The body of one streamed response as a program. Whatever the journal and the channel
    answer, what it does is a run of the stream transition system, and every step it logs
    rests on what it was answered for that step. */
module StreamTask {
  import opened Wrappers
  import opened Model
  import opened Journal
  import opened Paging
  import opened Stream

  datatype Received = Item(entry: JournaledEvent) | Lagged | Closed

  datatype Answer = Page(events: Option<Entries>) | Got(received: Received)

  /** A step of the stream and the answers it rests on. */
  predicate Rests(w: World, a: Action, given: seq<Answer>) {
    match a
    case Query(ok) => given == [Page(if ok then Some(After(w.journal, w.lastSent)) else None)]
    case Receive => w.pos < |w.sent| && given == [Got(Item(w.sent[w.pos]))]
    case Lag => given == [Got(Lagged)]
    case Replay => given == []
    case _ => false
  }

  /** Behind every point at which the run turned to the journal, all of it up to then was sent. */
  ghost predicate Repaired(ws: seq<World>, acts: seq<Action>, body: Entries)
    requires |ws| == |acts| + 1
  {
    forall k, e :: 0 <= k < |acts| && acts[k] == Lag && e in ws[k].journal && e.id > ws[k].lastSent ==> e in body
  }

  lemma LagsAreRepaired(ws: seq<World>, acts: seq<Action>)
    requires IsRun(ws, acts) && Query(false) !in acts && ws[|acts|].pc.Live?
    ensures Repaired(ws, acts, ws[|acts|].emitted)
    ensures forall e :: e in ws[0].journal && e.id > ws[0].since ==> e in ws[|acts|].emitted
  {
    BacklogIsServed(ws, acts, 0, |acts|);
    forall k, e | 0 <= k < |acts| && acts[k] == Lag && e in ws[k].journal && e.id > ws[k].lastSent
      ensures e in ws[|acts|].emitted
    {
      assert ws[k + 1] == Apply(ws[k], Lag);
      BacklogIsServed(ws, acts, k + 1, |acts|);
    }
  }

  /** What a run that has come to be live has sent. */
  lemma LiveBody(ws: seq<World>, acts: seq<Action>)
    requires IsRun(ws, acts) && ws[|acts|].pc.Live?
    ensures |ws| == |acts| + 1
    ensures var w := ws[|acts|];
            Increasing(w.emitted)
            && forall k :: 0 <= k < |w.emitted| ==> w.emitted[k] in w.journal && w.emitted[k].id > w.since
    ensures Query(false) !in acts ==>
              Repaired(ws, acts, ws[|acts|].emitted)
              && forall e :: e in ws[0].journal && e.id > ws[0].since ==> e in ws[|acts|].emitted
  {
    RunInv(ws, acts, |acts|);
    if Query(false) !in acts { LagsAreRepaired(ws, acts); }
  }

  class StreamTask {
    var lastSent: int
    var body: Entries
    ghost var trace: seq<World>
    ghost var acts: seq<Action>
    ghost var answers: seq<Answer> // history: written only by the methods that ask
    ghost var hungUp: bool         // history: `Recv` found the channel closed
    ghost var used: seq<Answer>    // the answers the steps logged so far rest on

    ghost predicate Agrees()
      reads `lastSent, `body, `trace, `acts
    {
      |trace| == |acts| + 1 && IsRun(trace, acts) && Now().lastSent == lastSent && Now().emitted == body
    }

    /** A failed query is logged only where one was answered. */
    ghost predicate Valid()
      reads `lastSent, `body, `trace, `acts, `answers, `used
    {
      Agrees() && answers == used && (Query(false) in acts ==> Page(None) in answers)
    }

    ghost function Now(): World
      reads `trace
      requires trace != []
    {
      trace[|trace| - 1]
    }

    /** The run so far has only been extended, and what was sent stays sent. */
    twostate predicate Extends()
      reads this
    {
      old(trace) <= trace && old(acts) <= acts && old(body) <= body && old(answers) <= answers
    }

    /** A request: subscribes, and only then reads the journal. */
    constructor (since: int, ghost journal: Entries)
      requires ValidJournal(journal)
      ensures Valid() && Now().pc == Querying && lastSent == since && body == []
      ensures trace == [World(journal, [], 0, since, since, [], Querying)] && acts == [] && answers == [] && !hungUp
    {
      lastSent, body := since, [];
      trace, acts := [World(journal, [], 0, since, since, [], Querying)], [];
      answers, used, hungUp := [], [], false;
    }

    /** One step of the stream joins the run, with the answers it rests on. */
    ghost method Log(a: Action, given: seq<Answer>)
      requires IsRun(trace, acts) && Enabled(Now(), a) && Rests(Now(), a, given) && answers == used + given
      requires Query(false) in acts ==> Page(None) in used
      modifies `trace, `acts, `used
      ensures IsRun(trace, acts) && old(trace) <= trace && Now() == Apply(old(Now()), a) && acts == old(acts) + [a]
      ensures used == answers && (Query(false) in acts ==> Page(None) in answers)
    {
      var next := Apply(Now(), a);
      if a == Query(false) { assert Page(None) in given; }
      trace, acts, used := trace + [next], acts + [a], answers;
    }

    /** Any number of appends and broadcasts. Callers learn only this contract. */
    method Interfere()
      requires Valid()
      modifies `trace, `acts
      ensures Valid() && Extends() && Now().pc == old(Now()).pc && Now().pos == old(Now()).pos
    {
    }

    /** `list_events_since` without a limit; the store may be unreadable. */
    method QueryJournal() returns (events: Option<Entries>)
      requires Agrees()
      modifies `answers
      ensures answers == old(answers) + [Page(events)]
      ensures events.Some? ==> events.value == EventsPage(Now().journal, lastSent, None)
    {
      events := None;
      answers := answers + [Page(events)];
    }

    /** `rx.recv`, which waits for the channel. */
    method Recv() returns (r: Received)
      requires Valid()
      modifies `trace, `acts, `answers, `hungUp
      ensures Agrees() && Extends() && Now().pc == old(Now()).pc && (Query(false) in acts ==> Page(None) in used)
      ensures r.Lagged? ==> Lagging(Now())
      ensures r.Item? ==> !Lagging(Now()) && Now().pos < |Now().sent| && Now().sent[Now().pos] == r.entry
      ensures if r.Closed? then hungUp && answers == old(answers)
              else hungUp == old(hungUp) && answers == old(answers) + [Got(r)]
    {
      hungUp := true;
      return Closed;
    }

    /** Sends the next entry of a replay. */
    method SendNext(entry: JournaledEvent, ghost rest: Entries)
      requires Valid() && Now().pc == Replaying([entry] + rest)
      modifies `lastSent, `body, `trace, `acts, `used
      ensures Valid() && Extends() && Now().pc == Replaying(rest) && body == old(body) + [entry]
    {
      Interfere();
      lastSent := entry.id;
      body := body + [entry];
      Log(Replay, []);
    }

    /** Reads what comes after the cursor, at a point of the run. */
    method QueryRest() returns (events: Option<Entries>, ghost at: nat)
      requires Valid() && Now().pc == Querying
      modifies `trace, `acts, `answers, `used
      ensures Valid() && Extends() && |old(trace)| <= at + 1 && at < |trace|
      ensures answers == old(answers) + [Page(events)]
      ensures if events.Some? then events.value == After(trace[at].journal, lastSent) && Now().pc == Replaying(events.value)
              else Now().pc == Live
    {
      Interfere();
      at := |trace| - 1;
      events := QueryJournal();
      Log(Query(events.Some?), [Page(events)]);
    }

    method SendAll(events: Entries)
      requires Valid() && Now().pc == Replaying(events)
      modifies `lastSent, `body, `trace, `acts, `used
      ensures Valid() && Extends() && Now().pc == Live && body == old(body) + events
    {
      for i := 0 to |events|
        invariant Valid() && Extends() && Now().pc == Replaying(events[i..]) && body == old(body) + events[..i]
      {
        assert events[i..] == [events[i]] + events[i + 1..] && events[..i + 1] == events[..i] + [events[i]];
        SendNext(events[i], events[i + 1..]);
      }
      assert events[..|events|] == events;
      Log(Replay, []);
    }

    /** Asks the journal once, and sends every entry it held after the cursor when it was read;
        nothing when the query failed. */
    method ReplayJournal() returns (ghost sent: Option<Entries>, ghost at: nat)
      requires Valid() && Now().pc == Querying
      modifies `lastSent, `body, `trace, `acts, `answers, `used
      ensures Valid() && Extends() && Now().pc == Live && |old(trace)| <= at + 1 && at < |trace|
      ensures answers == old(answers) + [Page(sent)]
      ensures match sent
              case Some(entries) => entries == After(trace[at].journal, old(lastSent)) && body == old(body) + entries
              case None => body == old(body) && lastSent == old(lastSent)
    {
      var events;
      events, at := QueryRest();
      sent := events;
      ghost var here := trace;
      if events.Some? {
        SendAll(events.value);
        assert trace[at] == here[at];
      }
    }

    /** One turn of the live loop: a broadcast entry, or the repair after a lag; it ends only
        when the channel is closed. */
    method Turn() returns (closed: bool)
      requires Valid() && Now().pc == Live
      modifies this
      ensures Valid() && Extends() && Now().pc == Live
      ensures if closed then hungUp && body == old(body) && lastSent == old(lastSent) else |answers| > |old(answers)|
    {
      var received := Recv();
      match received
      case Closed =>
        return true;
      case Item(entry) =>
        if entry.id > lastSent {
          lastSent := entry.id;
          body := body + [entry];
        }
        Log(Receive, [Got(Item(entry))]);
        return false;
      case Lagged =>
        Log(Lag, [Got(Lagged)]);
        var sent, at := ReplayJournal();
        return false;
    }

    /** `stream_events`, for any number of turns of its live loop. The body begins with what the
        journal held after `since` when it was read; unless a query failed, it holds everything
        the journal held after the cursor at the start and at every lag; and it ends early only
        when the channel is closed. */
    method Run(turns: nat) returns (ghost backlog: Option<Entries>, ghost at: nat)
      requires Valid() && Now().pc == Querying
      modifies this
      ensures Valid() && Extends() && Now().pc == Live && |old(trace)| <= at + 1 && at < |trace|
      ensures Increasing(body) && forall k :: 0 <= k < |body| ==> body[k] in Now().journal && body[k].id > Now().since
      ensures old(answers) + [Page(backlog)] <= answers
      ensures backlog.Some? ==>
                backlog.value == After(trace[at].journal, old(lastSent)) && old(body) + backlog.value <= body
      ensures Page(None) !in answers ==>
                Repaired(trace, acts, body) && forall e :: e in trace[0].journal && e.id > trace[0].since ==> e in body
      ensures hungUp || |answers| > |old(answers)| + turns
    {
      hide IsRun, After, Repaired;
      backlog, at := ReplayJournal();
      ghost var first, sent, here := answers, body, trace;
      for turn := 0 to turns
        invariant Valid() && Extends() && Now().pc == Live
        invariant first <= answers && sent <= body && here <= trace
        invariant |answers| > |old(answers)| + turn
      {
        var closed := Turn();
        if closed {
          break;
        }
      }
      assert trace[at] == here[at];
      LiveBody(trace, acts);
    }
  }
}
