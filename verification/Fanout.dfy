/** Webhook fan-out: one emitter, a bounded queue and a worker for each enabled destination,
    and the status each of them reports. */
module Fanout {
  import opened Wrappers
  import opened Model
  import opened Journal
  import opened Paging

  const MAX_ATTEMPTS: nat := 3
  const DESTINATION_QUEUE_CAPACITY: nat := 256

  datatype WebhookStatus = WebhookStatus(id: string, enabled: bool, lastSuccessAt: Option<string>,
                                         lastError: Option<string>)

  datatype Response = Accepted | Rejected(category: string)

  datatype Delivery = Delivery(entry: JournaledEvent, tries: nat)

  datatype Finished = Finished(entry: JournaledEvent, tries: nat, delivered: bool)

  /** A destination: its queue, its worker, and the history of both. */
  datatype Destination = Destination(
    statusIndex: nat, queue: Entries, open: bool, busy: Option<Delivery>,
    offered: Entries, accepted: Entries, taken: Entries, done: seq<Finished>)

  /** What happens at one destination. */
  datatype Local = Offered(entry: JournaledEvent) | Took | Answered(response: Response, now: string) | Stopped

  /** A destination with the status it reports. */
  datatype View = View(dest: Destination, status: WebhookStatus)

  predicate Possible(v: View, e: Local) {
    match e
    case Offered(_) => true
    case Took => v.dest.open && v.dest.busy.None? && v.dest.queue != []
    case Answered(_, _) => v.dest.open && v.dest.busy.Some?
    case Stopped => v.dest.open
  }

  /** `try_send`. */
  function Offer(v: View, entry: JournaledEvent): View {
    var d := v.dest.(offered := v.dest.offered + [entry]);
    if !d.open then View(d, v.status.(lastError := Some("worker_closed")))
    else if |d.queue| >= DESTINATION_QUEUE_CAPACITY then View(d, v.status.(lastError := Some("queue_full")))
    else v.(dest := d.(queue := d.queue + [entry], accepted := d.accepted + [entry]))
  }

  /** One attempt of `deliver`. */
  function Answer(v: View, response: Response, now: string): View
    requires v.dest.busy.Some?
  {
    var d, tries := v.dest, v.dest.busy.value.tries + 1;
    var entry := d.busy.value.entry;
    match response
    case Accepted =>
      View(d.(busy := None, done := d.done + [Finished(entry, tries, true)]),
           v.status.(lastSuccessAt := Some(now), lastError := None))
    case Rejected(category) =>
      View(if tries < MAX_ATTEMPTS then d.(busy := Some(Delivery(entry, tries)))
           else d.(busy := None, done := d.done + [Finished(entry, tries, false)]),
           v.status.(lastError := Some(category)))
  }

  function LocalStep(v: View, e: Local): View
    requires Possible(v, e)
  {
    match e
    case Offered(entry) => Offer(v, entry)
    case Took =>
      var d := v.dest;
      v.(dest := d.(queue := d.queue[1..], busy := Some(Delivery(d.queue[0], 0)), taken := d.taken + [d.queue[0]]))
    case Answered(response, now) => Answer(v, response, now)
    case Stopped => v.(dest := v.dest.(open := false, busy := None, queue := []))
  }

  // The whole system

  datatype Pc = Ready | Fanning(entry: JournaledEvent, next: nat)

  datatype World = World(journal: Entries, handled: Entries, pc: Pc, dests: seq<Destination>,
                         statuses: seq<WebhookStatus>)

  /** `Commit` stands for every other writer of the journal. The emitter takes up an entry
      that was committed already, or records a new event itself. */
  datatype Action =
    | Commit(entry: JournaledEvent)
    | TakeUp(entry: JournaledEvent)
    | RecordNew(entry: JournaledEvent)
    | FanOut
    | Act(d: nat, local: Local)

  ghost predicate WellFormed(w: World) {
    (forall d :: 0 <= d < |w.dests| ==> w.dests[d].statusIndex < |w.statuses|)
    && forall c, d :: 0 <= c < d < |w.dests| ==> w.dests[c].statusIndex != w.dests[d].statusIndex
  }

  function ViewOf(w: World, d: nat): View
    requires d < |w.dests| && w.dests[d].statusIndex < |w.statuses|
  {
    View(w.dests[d], w.statuses[w.dests[d].statusIndex])
  }

  function Put(w: World, d: nat, v: View): World
    requires d < |w.dests| && v.dest.statusIndex < |w.statuses|
  {
    w.(dests := w.dests[d := v.dest], statuses := w.statuses[v.dest.statusIndex := v.status])
  }

  ghost predicate Enabled(w: World, a: Action) {
    match a
    case Commit(entry) => entry.id >= NextId(w.journal)
    case TakeUp(entry) => w.pc.Ready? && entry in w.journal
    case RecordNew(entry) => w.pc.Ready? && entry.id >= NextId(w.journal)
    case FanOut => w.pc.Fanning?
    case Act(d, local) =>
      !local.Offered? && d < |w.dests| && w.dests[d].statusIndex < |w.statuses| && Possible(ViewOf(w, d), local)
  }

  function Apply(w: World, a: Action): World
    requires WellFormed(w) && Enabled(w, a)
  {
    match a
    case Commit(entry) => w.(journal := w.journal + [entry])
    case TakeUp(entry) => w.(handled := w.handled + [entry], pc := Fanning(entry, 0))
    case RecordNew(entry) =>
      w.(journal := w.journal + [entry], handled := w.handled + [entry], pc := Fanning(entry, 0))
    case FanOut =>
      if w.pc.next < |w.dests| then
        Put(w.(pc := Fanning(w.pc.entry, w.pc.next + 1)), w.pc.next, Offer(ViewOf(w, w.pc.next), w.pc.entry))
      else w.(pc := Ready)
    case Act(d, local) => Put(w, d, LocalStep(ViewOf(w, d), local))
  }

  ghost predicate Unused(d: Destination) {
    d.open && d.queue == [] && d.busy.None? && d.offered == [] && d.accepted == [] && d.taken == [] && d.done == []
  }

  ghost predicate Initial(w: World) {
    ValidJournal(w.journal) && w.handled == [] && w.pc == Ready && WellFormed(w)
    && forall d :: 0 <= d < |w.dests| ==> Unused(w.dests[d])
  }

  ghost predicate IsRun(ws: seq<World>, acts: seq<Action>) {
    |ws| == |acts| + 1 && Initial(ws[0])
    && forall i :: 0 <= i < |acts| ==> WellFormed(ws[i]) && Enabled(ws[i], acts[i]) && ws[i + 1] == Apply(ws[i], acts[i])
  }

  // Spawning

  datatype WebhookConfig = WebhookConfig(id: string, enabled: bool)

  function FreshStatus(config: WebhookConfig): WebhookStatus {
    WebhookStatus(config.id, config.enabled, None, None)
  }

  function FreshDestination(statusIndex: nat): Destination {
    Destination(statusIndex, [], true, None, [], [], [], [])
  }

  /** `spawn`: a status for every configured webhook, a destination for every enabled one. */
  method Spawn(webhooks: seq<WebhookConfig>, ghost journal: Entries)
    returns (dests: seq<Destination>, statuses: seq<WebhookStatus>)
    requires ValidJournal(journal)
    ensures Initial(World(journal, [], Ready, dests, statuses))
    ensures |statuses| == |webhooks| && forall i :: 0 <= i < |webhooks| ==> statuses[i] == FreshStatus(webhooks[i])
    ensures forall i :: 0 <= i < |webhooks| ==>
              (webhooks[i].enabled <==> exists d :: 0 <= d < |dests| && dests[d].statusIndex == i)
  {
    statuses := seq(|webhooks|, i requires 0 <= i < |webhooks| => FreshStatus(webhooks[i]));
    dests := [];
    for i := 0 to |webhooks|
      invariant forall d :: 0 <= d < |dests| ==> Unused(dests[d]) && dests[d].statusIndex < i
      invariant forall c, d :: 0 <= c < d < |dests| ==> dests[c].statusIndex < dests[d].statusIndex
      invariant forall j :: 0 <= j < i ==>
                  (webhooks[j].enabled <==> exists d :: 0 <= d < |dests| && dests[d].statusIndex == j)
    {
      ghost var before := dests;
      if webhooks[i].enabled {
        dests := dests + [FreshDestination(i)];
        assert dests[|before|].statusIndex == i;
        forall j | 0 <= j < i
          ensures webhooks[j].enabled <==> exists d :: 0 <= d < |dests| && dests[d].statusIndex == j
        {
          if webhooks[j].enabled {
            var d :| 0 <= d < |before| && before[d].statusIndex == j;
            assert dests[d].statusIndex == j;
          }
        }
      }
    }
  }

  // Isolation

  lemma {:induction false} RunWellFormed(ws: seq<World>, acts: seq<Action>, i: nat)
    requires IsRun(ws, acts) && i < |ws|
    ensures WellFormed(ws[i]) && |ws[i].dests| == |ws[0].dests| && |ws[i].statuses| == |ws[0].statuses|
    ensures forall d :: 0 <= d < |ws[i].dests| ==> ws[i].dests[d].statusIndex == ws[0].dests[d].statusIndex
  {
    if i > 0 {
      RunWellFormed(ws, acts, i - 1);
      StepShape(ws[i - 1], acts[i - 1], ws[i]);
    }
  }

  lemma StepShape(w: World, a: Action, w': World)
    requires WellFormed(w) && Enabled(w, a) && w' == Apply(w, a)
    ensures WellFormed(w') && |w'.dests| == |w.dests| && |w'.statuses| == |w.statuses|
    ensures forall d :: 0 <= d < |w.dests| ==> w'.dests[d].statusIndex == w.dests[d].statusIndex
  {
  }

  /** What a step of the system is at one destination, if anything. */
  function Seen(w: World, a: Action, d: nat): seq<Local> {
    match a
    case FanOut => if w.pc.Fanning? && w.pc.next == d then [Offered(w.pc.entry)] else []
    case Act(c, local) => if c == d then [local] else []
    case _ => []
  }

  /** A step changes a destination and its status exactly as the destination's own event
      says, and not at all when it has none. */
  lemma StepIsLocal(w: World, a: Action, w': World, d: nat)
    requires WellFormed(w) && Enabled(w, a) && w' == Apply(w, a) && d < |w.dests|
    ensures WellFormed(w') && d < |w'.dests|
    ensures Seen(w, a, d) == [] ==> ViewOf(w', d) == ViewOf(w, d)
    ensures Seen(w, a, d) != [] ==>
              |Seen(w, a, d)| == 1 && Possible(ViewOf(w, d), Seen(w, a, d)[0])
              && ViewOf(w', d) == LocalStep(ViewOf(w, d), Seen(w, a, d)[0])
  {
    StepShape(w, a, w');
  }

  /** The destination's own history of the first i steps of a run. */
  function History(ws: seq<World>, acts: seq<Action>, d: nat, i: nat): seq<Local>
    requires i <= |acts| < |ws|
  {
    if i == 0 then [] else History(ws, acts, d, i - 1) + Seen(ws[i - 1], acts[i - 1], d)
  }

  function Replay(v: View, word: seq<Local>): View
    decreases |word|
  {
    if word == [] then v
    else
      var u := Replay(v, word[..|word| - 1]);
      if Possible(u, word[|word| - 1]) then LocalStep(u, word[|word| - 1]) else u
  }

  /** Every event was possible when it happened. */
  predicate Lawful(v: View, word: seq<Local>)
    decreases |word|
  {
    word == [] || (Lawful(v, word[..|word| - 1]) && Possible(Replay(v, word[..|word| - 1]), word[|word| - 1]))
  }

  lemma ReplayOne(v: View, word: seq<Local>, e: Local)
    requires Lawful(v, word) && Possible(Replay(v, word), e)
    ensures Lawful(v, word + [e]) && Replay(v, word + [e]) == LocalStep(Replay(v, word), e)
  {
  }

  /** A destination and its status are determined by the destination's own history. */
  lemma {:induction false} RunIsLocal(ws: seq<World>, acts: seq<Action>, d: nat, i: nat)
    requires IsRun(ws, acts) && i <= |acts| && d < |ws[0].dests|
    ensures WellFormed(ws[0]) && WellFormed(ws[i]) && d < |ws[i].dests|
    ensures Lawful(ViewOf(ws[0], d), History(ws, acts, d, i))
    ensures ViewOf(ws[i], d) == Replay(ViewOf(ws[0], d), History(ws, acts, d, i))
  {
    RunWellFormed(ws, acts, i);
    if i > 0 {
      RunIsLocal(ws, acts, d, i - 1);
      StepIsLocal(ws[i - 1], acts[i - 1], ws[i], d);
      var seen := Seen(ws[i - 1], acts[i - 1], d);
      if seen != [] {
        assert seen == [seen[0]];
        ReplayOne(ViewOf(ws[0], d), History(ws, acts, d, i - 1), seen[0]);
      } else {
        assert History(ws, acts, d, i) == History(ws, acts, d, i - 1);
      }
    }
  }

  /** Two runs, with other destinations, other schedules and other outcomes elsewhere, give a
      destination the same queue, the same deliveries and the same status whenever its own
      history, the entries offered interleaved with its own steps, is the same. */
  lemma Isolation(ws: seq<World>, acts: seq<Action>, d: nat, i: nat, ws': seq<World>, acts': seq<Action>, d': nat, i': nat)
    requires IsRun(ws, acts) && i <= |acts| && d < |ws[0].dests|
    requires IsRun(ws', acts') && i' <= |acts'| && d' < |ws'[0].dests|
    requires ws[0].dests[d].statusIndex < |ws[0].statuses| && ws'[0].dests[d'].statusIndex < |ws'[0].statuses|
    requires ViewOf(ws[0], d) == ViewOf(ws'[0], d')
    requires History(ws, acts, d, i) == History(ws', acts', d', i')
    ensures d < |ws[i].dests| && d' < |ws'[i'].dests|
    ensures ws[i].dests[d].statusIndex < |ws[i].statuses| && ws'[i'].dests[d'].statusIndex < |ws'[i'].statuses|
    ensures ViewOf(ws[i], d) == ViewOf(ws'[i'], d')
  {
    RunIsLocal(ws, acts, d, i);
    RunIsLocal(ws', acts', d', i');
  }

  // What a destination receives

  /** Some entries left out, the rest in the same order. */
  predicate Subsequence(part: Entries, whole: Entries)
    decreases |whole|
  {
    if part == [] then true
    else if whole == [] then false
    else
      var m, n := |part| - 1, |whole| - 1;
      (part[m] == whole[n] && Subsequence(part[..m], whole[..n])) || Subsequence(part, whole[..n])
  }

  lemma SubsequenceGrows(part: Entries, whole: Entries, e: JournaledEvent)
    requires Subsequence(part, whole)
    ensures Subsequence(part, whole + [e]) && Subsequence(part + [e], whole + [e])
  {
  }

  /** The bookkeeping of one destination. */
  ghost predicate DestOk(d: Destination) {
    && Subsequence(d.accepted, d.offered)
    && |d.queue| <= DESTINATION_QUEUE_CAPACITY
    && d.taken <= d.accepted && (d.open ==> d.accepted == d.taken + d.queue)
    && |d.done| <= |d.taken| && (forall k :: 0 <= k < |d.done| ==> d.done[k].entry == d.taken[k])
    && (forall k :: 0 <= k < |d.done| ==> 1 <= d.done[k].tries <= MAX_ATTEMPTS)
    && (forall k :: 0 <= k < |d.done| ==> !d.done[k].delivered ==> d.done[k].tries == MAX_ATTEMPTS)
    && (d.open ==> |d.taken| == |d.done| + if d.busy.Some? then 1 else 0)
    && (d.busy.Some? ==> d.open && d.busy.value.tries < MAX_ATTEMPTS && d.busy.value.entry == d.taken[|d.taken| - 1])
  }

  lemma OfferOk(v: View, entry: JournaledEvent)
    requires DestOk(v.dest)
    ensures DestOk(Offer(v, entry).dest)
  {
  }

  lemma TookOk(v: View)
    requires DestOk(v.dest) && Possible(v, Took)
    ensures DestOk(LocalStep(v, Took).dest)
  {
  }

  lemma AnswerOk(v: View, response: Response, now: string)
    requires DestOk(v.dest) && v.dest.busy.Some?
    ensures DestOk(Answer(v, response, now).dest)
  {
  }

  lemma LocalStepOk(v: View, e: Local)
    requires DestOk(v.dest) && Possible(v, e)
    ensures DestOk(LocalStep(v, e).dest)
  {
    match e
    case Offered(entry) => OfferOk(v, entry);
    case Took => TookOk(v);
    case Answered(response, now) => AnswerOk(v, response, now);
    case Stopped =>
  }

  lemma {:induction false} ReplayOk(v: View, word: seq<Local>)
    requires DestOk(v.dest) && Lawful(v, word)
    ensures DestOk(Replay(v, word).dest)
    decreases |word|
  {
    if word != [] {
      ReplayOk(v, word[..|word| - 1]);
      LocalStepOk(Replay(v, word[..|word| - 1]), word[|word| - 1]);
    }
  }

  /** The entries each destination was offered so far: everything the emitter handled, except
      the entry still on its way to it. */
  ghost predicate OfferedOk(w: World) {
    && ValidJournal(w.journal)
    && (w.pc.Fanning? ==> w.handled != [] && w.handled[|w.handled| - 1] == w.pc.entry && w.pc.next <= |w.dests|)
    && (forall k :: 0 <= k < |w.handled| ==> w.handled[k] in w.journal)
    && forall d :: 0 <= d < |w.dests| ==>
         w.dests[d].offered == if w.pc.Fanning? && w.pc.next <= d then w.handled[..|w.handled| - 1] else w.handled
  }

  lemma FanOutOffered(w: World)
    requires WellFormed(w) && OfferedOk(w) && w.pc.Fanning? && w.pc.next < |w.dests|
    ensures OfferedOk(Apply(w, FanOut))
  {
  }

  lemma ActOffered(w: World, d: nat, local: Local)
    requires WellFormed(w) && OfferedOk(w) && Enabled(w, Act(d, local))
    ensures OfferedOk(Apply(w, Act(d, local)))
  {
  }

  lemma TakeUpOffered(w: World, entry: JournaledEvent)
    requires OfferedOk(w) && w.pc.Ready? && entry in w.journal
    ensures OfferedOk(w.(handled := w.handled + [entry], pc := Fanning(entry, 0)))
  {
  }

  lemma CommitOffered(w: World, entry: JournaledEvent)
    requires OfferedOk(w) && entry.id >= NextId(w.journal)
    ensures OfferedOk(w.(journal := w.journal + [entry]))
  {
  }

  lemma StepOffered(w: World, a: Action, w': World)
    requires WellFormed(w) && Enabled(w, a) && w' == Apply(w, a) && OfferedOk(w)
    ensures OfferedOk(w')
  {
    match a
    case FanOut => if w.pc.next < |w.dests| { FanOutOffered(w); }
    case Act(d, local) => ActOffered(w, d, local);
    case TakeUp(entry) => TakeUpOffered(w, entry);
    case RecordNew(entry) =>
      CommitOffered(w, entry);
      TakeUpOffered(w.(journal := w.journal + [entry]), entry);
    case Commit(entry) => CommitOffered(w, entry);
  }

  lemma {:induction false} RunOffered(ws: seq<World>, acts: seq<Action>, i: nat)
    requires IsRun(ws, acts) && i < |ws|
    ensures OfferedOk(ws[i])
  {
    if i > 0 {
      RunOffered(ws, acts, i - 1);
      StepOffered(ws[i - 1], acts[i - 1], ws[i]);
    }
  }

  lemma {:induction false} SubsequenceMembers(part: Entries, whole: Entries)
    requires Subsequence(part, whole)
    ensures forall k :: 0 <= k < |part| ==> part[k] in whole
    decreases |whole|
  {
    if part != [] {
      var m, n := |part| - 1, |whole| - 1;
      if part[m] == whole[n] && Subsequence(part[..m], whole[..n]) {
        SubsequenceMembers(part[..m], whole[..n]);
        assert forall k :: 0 <= k < m ==> part[..m][k] == part[k];
      } else {
        SubsequenceMembers(part, whole[..n]);
      }
      assert forall e :: e in whole[..n] ==> e in whole;
    }
  }

  /** In every run, whatever the other destinations do: a destination accepts a subsequence of
      what the emitter handled, in the emitter's order; it takes what it accepted first in
      first out, from a queue of at most 256; and it makes at most three attempts for each,
      exactly three when it gives up, every one with a journaled event. */
  lemma DeliversInOrder(ws: seq<World>, acts: seq<Action>, d: nat, i: nat)
    requires IsRun(ws, acts) && i <= |acts| && d < |ws[0].dests|
    ensures d < |ws[i].dests|
    ensures var t := ws[i].dests[d];
            && Subsequence(t.accepted, ws[i].handled)
            && |t.queue| <= DESTINATION_QUEUE_CAPACITY
            && t.taken <= t.accepted && (t.open ==> t.accepted == t.taken + t.queue)
            && |t.done| <= |t.taken| && (forall k :: 0 <= k < |t.done| ==> t.done[k].entry == t.taken[k])
            && (forall k :: 0 <= k < |t.done| ==> 1 <= t.done[k].tries <= MAX_ATTEMPTS)
            && (forall k :: 0 <= k < |t.done| ==> !t.done[k].delivered ==> t.done[k].tries == MAX_ATTEMPTS)
            && (t.busy.Some? ==> t.busy.value.tries < MAX_ATTEMPTS)
            && (forall k :: 0 <= k < |t.taken| ==> t.taken[k] in ws[i].journal)
  {
    RunIsLocal(ws, acts, d, i);
    ReplayOk(ViewOf(ws[0], d), History(ws, acts, d, i));
    RunOffered(ws, acts, i);
    AcceptedIsHandled(ws[i], d);
  }

  lemma AcceptedIsHandled(w: World, d: nat)
    requires OfferedOk(w) && d < |w.dests| && DestOk(w.dests[d])
    ensures Subsequence(w.dests[d].accepted, w.handled)
    ensures forall k :: 0 <= k < |w.dests[d].taken| ==> w.dests[d].taken[k] in w.journal
  {
    var t := w.dests[d];
    if t.offered != w.handled {
      var n := |w.handled| - 1;
      assert w.handled == w.handled[..n] + [w.handled[n]];
      SubsequenceGrows(t.accepted, w.handled[..n], w.handled[n]);
    }
    SubsequenceMembers(t.accepted, w.handled);
    forall k | 0 <= k < |t.taken| ensures t.taken[k] in w.journal {
      assert t.taken[k] == t.accepted[k];
    }
  }

  /** Room for one more entry. */
  predicate Room(d: Destination) {
    d.open && |d.queue| < DESTINATION_QUEUE_CAPACITY
  }

  lemma {:induction false} DropsAreForever(v: View, word: seq<Local>)
    requires Lawful(v, word) && v.dest.accepted == v.dest.offered
    ensures var t := Replay(v, word).dest;
            |t.accepted| <= |t.offered|
            && (t.accepted == t.offered <==> |t.accepted| == |t.offered|)
            && (t.accepted == t.offered <==>
                  forall k :: 0 <= k < |word| && word[k].Offered? ==> Room(Replay(v, word[..k]).dest))
    decreases |word|
  {
    if word != [] {
      var n := |word| - 1;
      DropsAreForever(v, word[..n]);
      assert forall k :: 0 <= k < n ==> word[..n][k] == word[k] && word[..n][..k] == word[..k];
      OfferCounts(Replay(v, word[..n]), word[n]);
    }
  }

  lemma OfferCounts(v: View, e: Local)
    requires Possible(v, e)
    ensures var d, d' := v.dest, LocalStep(v, e).dest;
            if e.Offered? && Room(d) then d'.accepted == d.accepted + [e.entry] && d'.offered == d.offered + [e.entry]
            else d'.accepted == d.accepted && d'.offered == d.offered + if e.Offered? then [e.entry] else []
  {
  }

  /** A destination has been given everything it was offered if and only if its worker was
      there and its queue had room each time. */
  lemma NothingDroppedExactly(ws: seq<World>, acts: seq<Action>, d: nat, i: nat)
    requires IsRun(ws, acts) && i <= |acts| && d < |ws[0].dests| && ws[0].dests[d].statusIndex < |ws[0].statuses|
    ensures d < |ws[i].dests|
    ensures ws[i].dests[d].accepted == ws[i].dests[d].offered <==>
              forall k :: 0 <= k < |History(ws, acts, d, i)| && History(ws, acts, d, i)[k].Offered? ==>
                Room(Replay(ViewOf(ws[0], d), History(ws, acts, d, i)[..k]).dest)
  {
    RunIsLocal(ws, acts, d, i);
    DropsAreForever(ViewOf(ws[0], d), History(ws, acts, d, i));
  }
}
