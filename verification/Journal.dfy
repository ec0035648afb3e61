/** The event journal: what may enter it, and how its cursor grows. */
module Journal {
  import opened Wrappers
  import opened Model
  import opened Strings

  predicate Nonempty(value: Option<string>) {
    value.Some? && value.value != ""
  }

  predicate NonBlank(value: Option<string>) {
    value.Some? && Trim(value.value) != ""
  }

  /** `validate_public_event`: an inbound event carries every required provider field. */
  predicate ValidPublicEvent(event: Event) {
    event.event == ReceivedEvent ==>
      && Nonempty(event.providerMessageId)
      && Nonempty(event.handle)
      && Nonempty(event.chatId)
      && event.threadKind.Some? && event.threadKind.value in ["direct", "group", "unclassified"]
      && event.membershipComplete.Some?
      && event.classificationBasis.Some?
      && event.classificationConflict.Some?
      && NonBlank(event.text)
      && Nonempty(event.protocol)
  }

  /** Ids grow along the journal. */
  ghost predicate Increasing(journal: seq<JournaledEvent>) {
    forall i, j :: 0 <= i < j < |journal| ==> journal[i].id < journal[j].id
  }

  ghost predicate ValidJournal(journal: seq<JournaledEvent>) {
    Increasing(journal) && forall i :: 0 <= i < |journal| ==> journal[i].id > 0
  }

  /** AUTOINCREMENT in a table whose rows are never deleted. */
  function NextId(journal: seq<JournaledEvent>): int {
    if journal == [] then 1 else journal[|journal| - 1].id + 1
  }

  function Append(journal: seq<JournaledEvent>, installation: string, event: Event, now: string)
    : (journal': seq<JournaledEvent>)
    ensures ValidJournal(journal) ==> ValidJournal(journal')
  {
    journal + [JournaledEvent(installation, NextId(journal), event, now)]
  }
}
