/** From a chat.db row to the public `message.received` event. */
module InboundEvent {
  import opened Wrappers
  import opened Utf8
  import opened Strings
  import opened Model
  import opened Journal
  import AttributedBody

  datatype Row = Row(
    rowid: int, guid: string, handle: Option<string>, destinationCallerId: Option<string>,
    text: Option<string>, body: Option<seq<byte>>, date: int, isFromMe: int, isDelivered: int,
    isRead: int, dateDelivered: int, dateRead: int, chatId: Option<string>, chatGuidCount: int,
    service: Option<string>, participantCount: int, hasRoomName: bool, hasAttachments: bool)

  const U32_MAX: nat := 0xFFFF_FFFF

  function OrElse(a: Option<string>, b: Option<string>): Option<string> {
    if a.Some? then a else b
  }

  function KeepNonBlank(value: Option<string>): Option<string> {
    if NonBlank(value) then value else None
  }

  /** Row text, else decoded body, else a placeholder for attachments. */
  function TextOf(row: Row): Option<string> {
    var decoded := if row.body.Some? then AttributedBody.BodyText(row.body.value) else None;
    OrElse(KeepNonBlank(OrElse(KeepNonBlank(row.text), decoded)),
           if row.hasAttachments then Some("[Attachment]") else None)
  }

  function Missing(row: Row): seq<string> {
    (if Nonempty(row.handle) then [] else ["handle"])
    + (if row.chatGuidCount == 1 && Nonempty(row.chatId) then [] else ["chat_id"])
    + (if TextOf(row).Some? then [] else ["text"])
  }

  function Join(parts: seq<string>): string {
    if parts == [] then "" else if |parts| == 1 then parts[0] else parts[0] + ", " + Join(parts[1..])
  }

  datatype ThreadClassification = ThreadClassification(kind: string, participantCount: Option<nat>,
                                                       membershipComplete: bool, basis: seq<string>,
                                                       conflict: bool)

  function Decimal(n: nat): string {
    if n < 10 then ["0123456789"[n]] else Decimal(n / 10) + ["0123456789"[n % 10]]
  }

  function Participants(row: Row): Option<nat> {
    if 0 < row.participantCount <= U32_MAX then Some(row.participantCount) else None
  }

  function ClassifyThread(row: Row): ThreadClassification {
    var count := Participants(row);
    var complete := row.chatGuidCount == 1 && count.Some?;
    var chatId := if row.chatId.Some? then row.chatId.value else "";
    var guidDirect, guidGroup := Contains(chatId, ";-;"), Contains(chatId, ";+;");
    var direct := complete && count == Some(1);
    var group := count.Some? && count.value > 1;
    var conflict := guidDirect && (group || row.hasRoomName);
    var basis :=
      [if count.Some? then "participant_count:" + Decimal(count.value) else "membership_unavailable"]
      + (if row.hasRoomName then ["room_name"] else [])
      + [if guidDirect then "chat_guid:direct" else if guidGroup then "chat_guid:group" else "chat_guid:unknown"]
      + (if conflict then ["contradictory_evidence"] else []);
    var kind :=
      if conflict then "unclassified"
      else if group || row.hasRoomName || guidGroup then "group"
      else if direct && guidDirect then "direct"
      else "unclassified";
    ThreadClassification(kind, count, complete, basis, conflict)
  }

  function NormalizeService(service: Option<string>): string {
    var trimmed := if service.Some? then Trim(service.value) else "";
    if trimmed == "" then "imessage" else Lower(trimmed)
  }

  /** `inbound_event`: an event, or the reason the row is incomplete. `timestamp` is the
      row's date as text, or the clock when the row has none. */
  function EventOf(row: Row, timestamp: string): Result<Event, string> {
    if Missing(row) != [] then Failure("missing " + Join(Missing(row)))
    else
      var c := ClassifyThread(row);
      Success(NewEvent(ReceivedEvent, row.guid, timestamp).(
        providerMessageId := Some(row.guid),
        handle := row.handle,
        destinationCallerId := KeepNonBlank(row.destinationCallerId),
        chatId := row.chatId,
        threadKind := Some(c.kind),
        participantCount := c.participantCount,
        membershipComplete := Some(c.membershipComplete),
        classificationBasis := Some(c.basis),
        classificationConflict := Some(c.conflict),
        text := TextOf(row),
        protocol := Some(NormalizeService(row.service)),
        status := Some(Received)))
  }

  /** Whatever the classification, service, text or attachment path, an event built from
      a row with a guid is accepted by the journal; and it keeps the row's identity. */
  lemma BuiltEventsAreValid(row: Row, timestamp: string)
    requires row.guid != "" && EventOf(row, timestamp).Success?
    ensures var event := EventOf(row, timestamp).value;
            ValidPublicEvent(event) && event.event == ReceivedEvent
            && event.messageId == row.guid && event.providerMessageId == Some(row.guid)
  {
    assert Nonempty(row.handle) && Nonempty(row.chatId) && TextOf(row).Some?;
    TextIsNonBlank(row);
  }

  lemma TextIsNonBlank(row: Row)
    ensures TextOf(row).Some? ==> NonBlank(TextOf(row))
  {
  }

  /** `direct` and `group` are claimed only on consistent evidence, and a contradiction is
      always flagged and never classified. */
  lemma ClassificationIsSafe(row: Row)
    ensures var c := ClassifyThread(row);
            var chatId := if row.chatId.Some? then row.chatId.value else "";
            && (c.kind == "direct" <==> Contains(chatId, ";-;") && !Contains(chatId, ";+;")
                                        && !row.hasRoomName && row.chatGuidCount == 1 && row.participantCount == 1)
            && (c.conflict <==> Contains(chatId, ";-;")
                                && (row.hasRoomName || 1 < row.participantCount <= U32_MAX))
            && (c.conflict ==> c.kind == "unclassified")
            && (c.conflict <==> "contradictory_evidence" in c.basis)
            && (c.kind == "group" <==> !c.conflict && (row.hasRoomName || Contains(chatId, ";+;")
                                                       || 1 < row.participantCount <= U32_MAX))
  {
    var c := ClassifyThread(row);
    KindsDistinct();
    assert "contradictory_evidence" in c.basis ==> c.conflict by {
      BasisWords();
      if row.participantCount > 0 { DecimalPrefix(row.participantCount); }
    }
    assert c.conflict ==> c.basis[|c.basis| - 1] == "contradictory_evidence";
  }

  lemma KindsDistinct()
    ensures "direct" != "group" && "direct" != "unclassified" && "group" != "unclassified"
  {
  }

  lemma BasisWords()
    ensures "contradictory_evidence" !in
            ["membership_unavailable", "room_name", "chat_guid:direct", "chat_guid:group", "chat_guid:unknown"]
  {
  }

  lemma DecimalPrefix(n: nat)
    ensures "participant_count:" + Decimal(n) != "contradictory_evidence"
  {
    assert ("participant_count:" + Decimal(n))[0] == 'p';
    assert "contradictory_evidence"[0] == 'c';
  }

  /** The status a row's flags stand for. */
  function StatusFlags(isDelivered: int, isRead: int, dateDelivered: int, dateRead: int): Status {
    if isRead == 1 || dateRead > 0 then Read
    else if isDelivered == 1 || dateDelivered > 0 then Delivered
    else Sent
  }

  function StatusOf(row: Row): Status {
    StatusFlags(row.isDelivered, row.isRead, row.dateDelivered, row.dateRead)
  }
}
