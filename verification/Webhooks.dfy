/** The emitter and the destination workers as programs over their shared queues and status
    vector. However they interleave, what they do is a run of the fan-out transition system,
    and every step they log rests on what the sink, the journal and the endpoints answered. */
module Webhooks {
  import opened Wrappers
  import opened Model
  import opened Journal
  import opened Paging
  import opened Fanout

  datatype SinkItem = Committed(entry: JournaledEvent) | New(event: Event)

  /** What the emitter is told: the next item, and what became of a new event. */
  datatype Answer = Next(item: SinkItem) | Recorded(event: Event, entry: Option<JournaledEvent>)

  /** One post to an endpoint: the entry sent, the answer and the clock afterwards. */
  datatype Post = Post(entry: JournaledEvent, response: Response, now: string)

  /** A step of the emitter and the answers it rests on. */
  predicate Rests(a: Action, given: seq<Answer>) {
    match a
    case TakeUp(entry) => given == [Next(Committed(entry))]
    case RecordNew(entry) => given == [Next(New(entry.event)), Recorded(entry.event, Some(entry))]
    case FanOut => given == []
    case Act(_, _) => given == []
    case Commit(_) => false
  }

  /** The posts of each destination once the step is taken: an answered attempt is one post of the
      entry the worker is busy with. */
  function Noted(posts: seq<seq<Post>>, w: World, a: Action): seq<seq<Post>> {
    match a
    case Act(d, Answered(response, now)) =>
      if d < |posts| && d < |w.dests| && w.dests[d].busy.Some?
      then posts[d := posts[d] + [Post(w.dests[d].busy.value.entry, response, now)]] else posts
    case _ => posts
  }

  /** All of one entry; only the last of them may have been accepted, and is when `delivered`. */
  predicate Attempts(posts: seq<Post>, entry: JournaledEvent, delivered: bool) {
    && (forall k :: 0 <= k < |posts| ==> posts[k].entry == entry)
    && (forall k :: 0 <= k < |posts| - 1 ==> posts[k].response.Rejected?)
    && (posts == [] ==> !delivered)
    && (posts != [] ==> (posts[|posts| - 1].response.Accepted? <==> delivered))
  }

  /** What a status shows after an answer, if it showed `s` before. */
  predicate Shows(s: WebhookStatus, post: Post, s': WebhookStatus) {
    match post.response
    case Accepted => s'.lastSuccessAt == Some(post.now) && s'.lastError == None
    case Rejected(category) => s'.lastSuccessAt == s.lastSuccessAt && s'.lastError == Some(category)
  }

  lemma RunExtends(ws: seq<World>, acts: seq<Action>, a: Action, next: World)
    requires IsRun(ws, acts) && WellFormed(ws[|acts|]) && Enabled(ws[|acts|], a) && next == Apply(ws[|acts|], a)
    ensures IsRun(ws + [next], acts + [a])
  {
  }

  class Webhooks {
    const queues: array<Entries>
    const open: array<bool>
    const statuses: array<WebhookStatus>
    const indices: seq<nat>
    var channel: Entries                // what the emitter broadcast to the streams
    ghost var trace: seq<World>
    ghost var acts: seq<Action>
    ghost var answers: seq<Answer>      // history: written by `NextItem` and `RecordEvent` alone
    ghost var items: nat                // history: the items `NextItem` returned
    ghost var refusals: nat             // history: the events `RecordEvent` refused
    ghost var closed: bool              // history: `NextItem` found the sink closed
    ghost var posts: seq<seq<Post>>     // history of each endpoint: written by `PostEntry` alone
    ghost var waits: seq<nat>           // history of each worker: `Recv` found its queue empty
    ghost var used: seq<Answer>         // the answers the steps logged so far rest on
    ghost var noted: seq<seq<Post>>     // the posts the steps logged so far rest on

    ghost predicate Valid()
      reads this, queues, open, statuses
    {
      IsRun(trace, acts) && Agrees(Now()) && used == answers && noted == posts
    }

    /** The shared memory holds what the system says. */
    ghost predicate Agrees(w: World)
      reads `channel, `posts, `waits, queues, open, statuses
    {
      && WellFormed(w) && channel == w.handled
      && queues.Length == open.Length == |indices| == |posts| == |waits| == |w.dests| && statuses[..] == w.statuses
      && forall d :: 0 <= d < |w.dests| ==>
           queues[d] == w.dests[d].queue && open[d] == w.dests[d].open && indices[d] == w.dests[d].statusIndex
    }

    ghost function Now(): World
      reads `trace
      requires trace != []
    {
      trace[|trace| - 1]
    }

    /** The status a destination reports. */
    ghost function Status(d: nat): WebhookStatus
      reads statuses
      requires d < |indices| && indices[d] < statuses.Length
    {
      statuses[indices[d]]
    }

    /** The run so far has only been extended. */
    twostate predicate Extends()
      reads this
    {
      old(trace) <= trace && old(acts) <= acts
    }

    constructor (dests: seq<Destination>, given: seq<WebhookStatus>, ghost journal: Entries)
      requires Initial(World(journal, [], Ready, dests, given))
      ensures Valid() && Now() == World(journal, [], Ready, dests, given) && acts == []
      ensures fresh(queues) && fresh(open) && fresh(statuses)
    {
      queues := new Entries[|dests|](d requires 0 <= d < |dests| => dests[d].queue);
      open := new bool[|dests|](d requires 0 <= d < |dests| => dests[d].open);
      statuses := new WebhookStatus[|given|](i requires 0 <= i < |given| => given[i]);
      indices := seq(|dests|, d requires 0 <= d < |dests| => dests[d].statusIndex);
      channel := [];
      trace, acts := [World(journal, [], Ready, dests, given)], [];
      answers, used, items, refusals, closed := [], [], 0, 0, false;
      posts, noted, waits := seq(|dests|, d => []), seq(|dests|, d => []), seq(|dests|, d => 0);
    }

    /** One step joins the run, once the shared memory shows it, with what it rests on. */
    ghost method Log(a: Action, given: seq<Answer>)
      requires IsRun(trace, acts) && WellFormed(Now()) && Enabled(Now(), a) && Agrees(Apply(Now(), a))
      requires Rests(a, given) && answers == used + given && posts == Noted(noted, Now(), a)
      modifies `trace, `acts, `used, `noted
      ensures Valid() && Extends() && Now() == Apply(old(Now()), a)
    {
      var next := Apply(Now(), a);
      RunExtends(trace, acts, a, next);
      trace, acts := trace + [next], acts + [a];
      used, noted := answers, posts;
    }

    /** A new event the journal refused leads to no step. */
    ghost method Drop(event: Event)
      requires IsRun(trace, acts) && Agrees(Now()) && posts == noted
      requires answers == used + [Next(New(event)), Recorded(event, None)]
      modifies `used
      ensures Valid()
    {
      used := answers;
    }

    /** Any number of steps of everybody but the emitter. Callers learn only this contract. */
    method BesidesEmitter()
      requires Valid()
      modifies `trace, `acts, `posts, `noted, `waits, queues, open, statuses
      ensures Valid() && Extends() && Now().pc == old(Now()).pc && Now().handled == old(Now()).handled
    {
    }

    /** Any number of steps of everybody but one worker. Callers learn only this contract. */
    method BesidesWorker(d: nat)
      requires Valid() && d < |Now().dests|
      modifies this, queues, open, statuses
      ensures Valid() && Extends() && d < |Now().dests| && posts[d] == old(posts)[d] && waits[d] == old(waits)[d]
      ensures var t, t' := old(Now()).dests[d], Now().dests[d];
              t'.busy == t.busy && t'.open == t.open && t'.taken == t.taken && t'.done == t.done && t.queue <= t'.queue
      ensures indices[d] < statuses.Length && Status(d).lastSuccessAt == old(Status(d)).lastSuccessAt
    {
    }

    method SetError(index: nat, category: string)
      requires index < statuses.Length
      modifies statuses
      ensures statuses[..] == old(statuses[..])[index := old(statuses[index]).(lastError := Some(category))]
    {
      statuses[index] := statuses[index].(lastError := Some(category));
    }

    /** `try_send` to one destination, with the error its status shows when it fails. */
    method TrySend(entry: JournaledEvent, d: nat)
      requires Valid() && Now().pc == Fanning(entry, d) && d < |Now().dests|
      modifies `trace, `acts, `used, `noted, queues, open, statuses
      ensures Valid() && Extends() && Now() == Apply(old(Now()), FanOut)
    {
      if !open[d] {
        SetError(indices[d], "worker_closed");
      } else if |queues[d]| >= DESTINATION_QUEUE_CAPACITY {
        SetError(indices[d], "queue_full");
      } else {
        queues[d] := queues[d] + [entry];
      }
      Log(FanOut, []);
    }

    /** The emitter hands one journaled entry to every destination, in order. */
    method FanOutEntry(entry: JournaledEvent)
      requires Valid() && Now().pc == Fanning(entry, 0)
      modifies `trace, `acts, `posts, `waits, `used, `noted, queues, open, statuses
      ensures Valid() && Extends() && Now().pc == Ready && Now().handled == old(Now()).handled
    {
      for d := 0 to queues.Length
        invariant Valid() && Extends() && Now().pc == Fanning(entry, d) && Now().handled == old(Now()).handled
      {
        BesidesEmitter();
        TrySend(entry, d);
      }
      Log(FanOut, []);
    }

    /** One attempt: what came back from the post just made is noted in the status. */
    method Attempt(d: nat, response: Response, now: string)
      requires IsRun(trace, acts) && Agrees(Now()) && used == answers
      requires d < |Now().dests| && Now().dests[d].busy.Some? && Now().dests[d].open
      requires posts == Noted(noted, Now(), Act(d, Answered(response, now)))
      modifies `trace, `acts, `used, `noted, statuses
      ensures Valid() && Extends() && Now() == Apply(old(Now()), Act(d, Answered(response, now)))
    {
      match response
      case Accepted =>
        var index := indices[d];
        statuses[index] := statuses[index].(lastSuccessAt := Some(now), lastError := None);
        Log(Act(d, Answered(response, now)), []);
      case Rejected(category) =>
        SetError(indices[d], category);
        Log(Act(d, Answered(response, now)), []);
    }

    /** Posts an entry: what the endpoint answers, if anything, and the clock afterwards. */
    method PostEntry(d: nat, entry: JournaledEvent) returns (response: Response, now: string)
      requires d < |posts|
      modifies `posts
      ensures posts == old(posts)[d := old(posts)[d] + [Post(entry, response, now)]]
    {
      response := *;
      now := *;
      posts := posts[d := posts[d] + [Post(entry, response, now)]];
    }

    /** One turn of the retry loop: one post of the entry, which ends the delivery exactly when the
        endpoint accepts it or it was the third; the status shows the answer. */
    method Try(d: nat, entry: JournaledEvent, attempt: nat) returns (delivered: bool, ghost post: Post)
      requires Valid() && d < |Now().dests| && Now().dests[d].open && 1 <= attempt <= MAX_ATTEMPTS
      requires Now().dests[d].busy == Some(Delivery(entry, attempt - 1))
      modifies this, queues, open, statuses
      ensures Valid() && Extends() && d < |Now().dests| && Now().dests[d].open && waits[d] == old(waits)[d]
      ensures posts[d] == old(posts)[d] + [post] && post.entry == entry && (delivered <==> post.response.Accepted?)
      ensures var more := !delivered && attempt < MAX_ATTEMPTS;
              && Now().dests[d].busy == (if more then Some(Delivery(entry, attempt)) else None)
              && Now().dests[d].done == old(Now()).dests[d].done + if more then [] else [Finished(entry, attempt, delivered)]
      ensures indices[d] < statuses.Length && Shows(old(Status(d)), post, Status(d))
    {
      BesidesWorker(d);
      var response, now := PostEntry(d, entry);
      Attempt(d, response, now);
      delivered := response.Accepted?;
      post := Post(entry, response, now);
    }

    /** `deliver`: posts the entry until it is accepted, three times at most, and says what the last
        answer was. */
    method Deliver(d: nat, entry: JournaledEvent) returns (delivered: bool, tries: nat, ghost mine: seq<Post>)
      requires Valid() && d < |Now().dests| && Now().dests[d].open && Now().dests[d].busy == Some(Delivery(entry, 0))
      modifies this, queues, open, statuses
      ensures Valid() && Extends() && d < |Now().dests| && Now().dests[d].open && Now().dests[d].busy.None?
      ensures posts[d] == old(posts)[d] + mine && |mine| == tries && Attempts(mine, entry, delivered)
      ensures 1 <= tries <= MAX_ATTEMPTS && (!delivered ==> tries == MAX_ATTEMPTS)
      ensures Now().dests[d].done == old(Now()).dests[d].done + [Finished(entry, tries, delivered)]
      ensures indices[d] < statuses.Length && Shows(old(Status(d)), mine[tries - 1], Status(d))
      ensures waits[d] == old(waits)[d]
    {
      mine := [];
      for attempt := 1 to MAX_ATTEMPTS + 1
        invariant Valid() && Extends() && d < |Now().dests| && Now().dests[d].open
        invariant Now().dests[d].busy == if attempt <= MAX_ATTEMPTS then Some(Delivery(entry, attempt - 1)) else None
        invariant Now().dests[d].done == old(Now()).dests[d].done
                                         + if attempt <= MAX_ATTEMPTS then [] else [Finished(entry, MAX_ATTEMPTS, false)]
        invariant posts[d] == old(posts)[d] + mine && |mine| == attempt - 1 && Attempts(mine, entry, false)
        invariant indices[d] < statuses.Length && Status(d).lastSuccessAt == old(Status(d)).lastSuccessAt
        invariant mine != [] ==> Shows(old(Status(d)), mine[|mine| - 1], Status(d))
        invariant waits[d] == old(waits)[d]
      {
        ghost var post;
        delivered, post := Try(d, entry, attempt);
        assert old(posts)[d] + mine + [post] == old(posts)[d] + (mine + [post]);
        mine := mine + [post];
        if delivered {
          return true, attempt, mine;
        }
      }
      return false, MAX_ATTEMPTS, mine;
    }

    /** `rx.recv` of a worker, when an entry is waiting. */
    method Recv(d: nat) returns (entry: Option<JournaledEvent>)
      requires Valid() && d < |Now().dests| && Now().dests[d].open && Now().dests[d].busy.None?
      modifies `trace, `acts, `used, `noted, `waits, queues
      ensures Valid() && Extends() && d < |Now().dests| && Now().dests[d].open
      ensures entry.Some? <==> old(Now()).dests[d].queue != []
      ensures waits == if entry.Some? then old(waits) else old(waits)[d := old(waits)[d] + 1]
      ensures Now() == if entry.Some? then Apply(old(Now()), Act(d, Took)) else old(Now())
      ensures entry.Some? ==> Now().dests[d].busy == Some(Delivery(entry.value, 0))
    {
      if queues[d] == [] {
        waits := waits[d := waits[d] + 1];
        return None;
      }
      entry := Some(queues[d][0]);
      queues[d] := queues[d][1..];
      Log(Act(d, Took), []);
    }

    /** One turn of `destination_worker`: an entry taken and delivered, or a wait. */
    method WorkerTurn(d: nat)
      requires Valid() && d < |Now().dests| && Now().dests[d].open && Now().dests[d].busy.None?
      modifies this, queues, open, statuses
      ensures Valid() && Extends() && d < |Now().dests| && Now().dests[d].open && Now().dests[d].busy.None?
      ensures |Now().dests[d].done| + waits[d] == |old(Now()).dests[d].done| + old(waits)[d] + 1
    {
      BesidesWorker(d);
      var entry := Recv(d);
      if entry.Some? {
        var delivered, tries, mine := Deliver(d, entry.value);
      }
    }

    /** `destination_worker`, for any number of turns: in each of them it finishes one delivery,
        unless its queue is empty. */
    method Worker(d: nat, turns: nat)
      requires Valid() && d < |Now().dests| && Now().dests[d].open && Now().dests[d].busy.None?
      modifies this, queues, open, statuses
      ensures Valid() && Extends() && d < |Now().dests|
      ensures |Now().dests[d].done| + waits[d] == |old(Now()).dests[d].done| + old(waits)[d] + turns
    {
      for turn := 0 to turns
        invariant Valid() && Extends() && d < |Now().dests| && Now().dests[d].open && Now().dests[d].busy.None?
        invariant |Now().dests[d].done| + waits[d] == |old(Now()).dests[d].done| + old(waits)[d] + turn
      {
        WorkerTurn(d);
      }
    }

    /** The next item of the sink, none once it is closed; a notification is of a committed entry. */
    method NextItem() returns (item: Option<SinkItem>)
      requires Valid()
      modifies `answers, `items, `closed
      ensures match item
              case Some(next) => answers == old(answers) + [Next(next)] && items == old(items) + 1 && closed == old(closed)
              case None => answers == old(answers) && items == old(items) && closed
      ensures item.Some? && item.value.Committed? ==> item.value.entry in Now().journal
    {
      closed := true;
      return None;
    }

    /** `record_event`; the store may refuse it. */
    method RecordEvent(event: Event) returns (entry: Option<JournaledEvent>)
      requires trace != []
      modifies `answers, `refusals
      ensures answers == old(answers) + [Recorded(event, entry)] && refusals == old(refusals) + if entry.None? then 1 else 0
      ensures entry.Some? ==> entry.value.event == event && entry.value.id >= NextId(Now().journal)
    {
      entry := None;
      answers, refusals := answers + [Recorded(event, entry)], refusals + 1;
    }

    /** `events.send`: every stream hears of the entry. */
    method Broadcast(entry: JournaledEvent)
      modifies `channel
      ensures channel == old(channel) + [entry]
    {
      channel := channel + [entry];
    }

    /** The emitter, for any number of turns: every item is broadcast and handed to all
        destinations, but for the new events the journal refused; it ends only with the sink. */
    method Emitter(turns: nat)
      requires Valid() && Now().pc == Ready
      modifies this, queues, open, statuses
      ensures Valid() && Extends() && Now().pc == Ready
      ensures |channel| + refusals - |old(channel)| - old(refusals) == items - old(items)
      ensures closed || items == old(items) + turns
    {
      for turn := 0 to turns
        invariant Valid() && Extends() && Now().pc == Ready
        invariant |channel| + refusals - |old(channel)| - old(refusals) == items - old(items)
        invariant items == old(items) + turn
      {
        BesidesEmitter();
        var item := NextItem();
        if item.None? {
          return;
        }
        var sent := EmitItem(item.value);
      }
    }

    /** A committed entry goes out as it is. */
    method EmitCommitted(entry: JournaledEvent)
      requires IsRun(trace, acts) && Agrees(Now()) && posts == noted && answers == used + [Next(Committed(entry))]
      requires Now().pc == Ready && entry in Now().journal
      modifies `trace, `acts, `channel, `posts, `waits, `used, `noted, queues, open, statuses
      ensures Valid() && Extends() && Now().pc == Ready && Now().handled == old(Now()).handled + [entry]
    {
      Broadcast(entry);
      Log(TakeUp(entry), [Next(Committed(entry))]);
      FanOutEntry(entry);
    }

    /** A new event goes out once it is journaled. */
    method EmitRecorded(entry: JournaledEvent)
      requires IsRun(trace, acts) && Agrees(Now()) && posts == noted
      requires answers == used + [Next(New(entry.event)), Recorded(entry.event, Some(entry))]
      requires Now().pc == Ready && entry.id >= NextId(Now().journal)
      modifies `trace, `acts, `channel, `posts, `waits, `used, `noted, queues, open, statuses
      ensures Valid() && Extends() && Now().pc == Ready && Now().handled == old(Now()).handled + [entry]
    {
      Broadcast(entry);
      Log(RecordNew(entry), [Next(New(entry.event)), Recorded(entry.event, Some(entry))]);
      FanOutEntry(entry);
    }

    /** One item of the sink, with what went out to the destinations: nothing only when the journal
        refused a new event. */
    method EmitItem(item: SinkItem) returns (sent: Option<JournaledEvent>)
      requires IsRun(trace, acts) && Agrees(Now()) && posts == noted && answers == used + [Next(item)]
      requires Now().pc == Ready && (item.Committed? ==> item.entry in Now().journal)
      modifies `trace, `acts, `channel, `answers, `refusals, `posts, `waits, `used, `noted, queues, open, statuses
      ensures Valid() && Extends() && Now().pc == Ready
      ensures Now().handled == old(Now()).handled + if sent.Some? then [sent.value] else []
      ensures refusals == old(refusals) + if sent.None? then 1 else 0
      ensures item.Committed? ==> sent == Some(item.entry)
      ensures item.New? && sent.Some? ==> sent.value.event == item.event && sent.value.id >= NextId(old(Now()).journal)
    {
      match item
      case Committed(entry) =>
        EmitCommitted(entry);
        return Some(entry);
      case New(event) =>
        sent := RecordEvent(event);
        assert answers == used + [Next(New(event)), Recorded(event, sent)];
        if sent.Some? {
          EmitRecorded(sent.value);
        } else {
          Drop(event);
        }
    }
  }
}
