/** The send job, the public event and the journal entry. */
module Model {
  import opened Wrappers

  datatype SendTarget = Handle(to: string) | Chat(chatId: string) {
    function StoreKey(): string {
      match this
      case Handle(to) => to
      case Chat(chatId) => chatId
    }

    function EventHandle(): Option<string> {
      match this
      case Handle(to) => Some(to)
      case Chat(_) => None
    }

    function EventChatId(): Option<string> {
      match this
      case Handle(_) => None
      case Chat(chatId) => Some(chatId)
    }

    function Kind(): TargetKind {
      match this
      case Handle(_) => HandleKind
      case Chat(_) => ChatKind
    }
  }

  /** The kind column; any text but the two known words is `OtherKind`. */
  datatype TargetKind = HandleKind | ChatKind | OtherKind(name: string)

  function KindText(kind: TargetKind): string {
    match kind
    case HandleKind => "handle"
    case ChatKind => "chat"
    case OtherKind(name) => name
  }

  function FromParts(kind: TargetKind, value: string): Option<SendTarget> {
    match kind
    case HandleKind => Some(Handle(value))
    case ChatKind => Some(Chat(value))
    case OtherKind(_) => None
  }

  datatype SendJob = SendJob(messageId: string, target: SendTarget, text: string, protocol: string,
                             clientRef: Option<string>)

  datatype EventKind = QueuedEvent | SentEvent | FailedEvent | ReceivedEvent | StatusEvent

  /** The status words of the protocol; any other text is `Other`. */
  datatype Status = Queued | Sent | Delivered | Read | Failed | Unknown | Received | Other(name: string)

  datatype Event = Event(
    event: EventKind,
    messageId: string,
    providerMessageId: Option<string>,
    clientRef: Option<string>,
    handle: Option<string>,
    destinationCallerId: Option<string>,
    chatId: Option<string>,
    threadKind: Option<string>,
    participantCount: Option<nat>,
    membershipComplete: Option<bool>,
    classificationBasis: Option<seq<string>>,
    classificationConflict: Option<bool>,
    text: Option<string>,
    protocol: Option<string>,
    status: Option<Status>,
    reason: Option<string>,
    timestamp: string)

  /** `Event::new`, with the clock as a parameter. */
  function NewEvent(event: EventKind, messageId: string, timestamp: string): Event {
    Event(event, messageId, None, None, None, None, None, None, None, None, None, None, None, None,
          None, None, timestamp)
  }

  /** An event with its local durable cursor. */
  datatype JournaledEvent = JournaledEvent(installationId: string, id: int, event: Event,
                                           createdAt: string)
}
