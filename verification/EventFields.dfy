/** The public event of an inbound row, field by field, in terms of the row alone. */
module EventFields {
  import opened Wrappers
  import opened Strings
  import opened Model
  import opened Journal
  import opened InboundEvent
  import opened Tables
  import AttributedBody

  /** Some character is not white space. */
  predicate Inked(s: string) {
    exists k :: 0 <= k < |s| && !IsSpace(s[k])
  }

  predicate AllSpace(s: string) {
    forall k :: 0 <= k < |s| ==> IsSpace(s[k])
  }

  lemma {:induction false} TrimStartSkips(pad: string, s: string)
    requires AllSpace(pad) && (s != "" ==> !IsSpace(s[0]))
    ensures TrimStart(pad + s) == s
  {
    if pad == "" {
      assert pad + s == s;
    } else {
      assert (pad + s)[0] == pad[0] && (pad + s)[1..] == pad[1..] + s;
      TrimStartSkips(pad[1..], s);
    }
  }

  lemma {:induction false} TrimEndSkips(s: string, pad: string)
    requires AllSpace(pad) && (s != "" ==> !IsSpace(s[|s| - 1]))
    ensures TrimEnd(s + pad) == s
  {
    if pad == "" {
      assert s + pad == s;
    } else {
      var n := |pad| - 1;
      assert (s + pad)[|s + pad| - 1] == pad[n] && (s + pad)[..|s + pad| - 1] == s + pad[..n];
      TrimEndSkips(s, pad[..n]);
    }
  }

  /** Trimming takes the white space off both ends of a core that has none there. */
  lemma TrimCore(left: string, core: string, right: string)
    requires AllSpace(left) && AllSpace(right) && core != "" && !IsSpace(core[0]) && !IsSpace(core[|core| - 1])
    ensures Trim(left + core + right) == core
  {
    assert left + core + right == left + (core + right);
    TrimStartSkips(left, core + right);
    TrimEndSkips(core, right);
  }

  lemma {:induction false} LastInk(s: string) returns (n: nat)
    requires Inked(s)
    ensures n < |s| && !IsSpace(s[n]) && AllSpace(s[n + 1..])
  {
    n := |s| - 1;
    if IsSpace(s[n]) {
      var k :| 0 <= k < |s| && !IsSpace(s[k]);
      assert s[..n][k] == s[k];
      n := LastInk(s[..n]);
      assert s[n + 1..] == s[..|s| - 1][n + 1..] + [s[|s| - 1]];
    }
  }

  lemma {:induction false} FirstInk(s: string) returns (n: nat)
    requires Inked(s)
    ensures n < |s| && !IsSpace(s[n]) && AllSpace(s[..n])
  {
    n := 0;
    if IsSpace(s[0]) {
      var k :| 0 <= k < |s| && !IsSpace(s[k]);
      assert s[1..][k - 1] == s[k];
      var m := FirstInk(s[1..]);
      n := m + 1;
      assert s[..n] == [s[0]] + s[1..][..m];
    }
  }

  /** A text is blank to the journal exactly when it is white space throughout. */
  lemma BlankExactly(s: string)
    ensures NonBlank(Some(s)) <==> Inked(s)
  {
    if Inked(s) {
      var lo := FirstInk(s);
      var hi := LastInk(s);
      assert s == s[..lo] + s[lo..hi + 1] + s[hi + 1..];
      TrimCore(s[..lo], s[lo..hi + 1], s[hi + 1..]);
    } else {
      TrimStartSkips(s, "");
      assert s + "" == s;
    }
  }

  /** What the row says: its own text unless blank, else the text in its body unless blank, else
      a placeholder when it has attachments. */
  predicate SaysText(row: Row, said: Option<string>) {
    var decoded := if row.body.Some? then AttributedBody.BodyText(row.body.value) else None;
    if row.text.Some? && Inked(row.text.value) then said == row.text
    else if decoded.Some? && Inked(decoded.value) then said == decoded
    else said == if row.hasAttachments then Some("[Attachment]") else None
  }

  lemma TextExactly(row: Row)
    ensures SaysText(row, TextOf(row))
  {
    if row.text.Some? { BlankExactly(row.text.value); }
    if row.body.Some? && AttributedBody.BodyText(row.body.value).Some? {
      BlankExactly(AttributedBody.BodyText(row.body.value).value);
    }
  }

  predicate Holds(field: Option<string>) {
    field.Some? && field.value != ""
  }

  /** The journal takes any event but a received one that lacks a provider field. */
  lemma ValidExactly(event: Event)
    ensures ValidPublicEvent(event) <==>
              event.event == ReceivedEvent ==>
                && Holds(event.providerMessageId) && Holds(event.handle) && Holds(event.chatId) && Holds(event.protocol)
                && event.text.Some? && Inked(event.text.value)
                && event.threadKind in {Some("direct"), Some("group"), Some("unclassified")}
                && event.membershipComplete.Some? && event.classificationBasis.Some? && event.classificationConflict.Some?
  {
    if event.text.Some? { BlankExactly(event.text.value); }
  }

  /** A row becomes an event exactly when it names a sender and one chat and says something. */
  lemma EventExactly(row: Row, timestamp: string, said: Option<string>)
    requires SaysText(row, said)
    ensures EventOf(row, timestamp).Success? <==>
              Holds(row.handle) && row.chatGuidCount == 1 && Holds(row.chatId) && said.Some?
  {
    TextExactly(row);
  }

  /** The fields of that event. */
  lemma FieldsExactly(row: Row, timestamp: string, said: Option<string>)
    requires SaysText(row, said) && EventOf(row, timestamp).Success?
    ensures var event := EventOf(row, timestamp).value;
            && event.event == ReceivedEvent && event.messageId == row.guid && event.providerMessageId == Some(row.guid)
            && event.handle == row.handle && event.chatId == row.chatId && event.text == said
            && event.clientRef == None && event.reason == None
            && event.status == Some(Received) && event.timestamp == timestamp
    ensures EventOf(row, timestamp).value.destinationCallerId
         == if row.destinationCallerId.Some? && Inked(row.destinationCallerId.value) then row.destinationCallerId else None
    ensures EventOf(row, timestamp).value.participantCount
         == if 1 <= row.participantCount < 0x1_0000_0000 then Some(row.participantCount) else None
    ensures EventOf(row, timestamp).value.membershipComplete == Some(1 <= row.participantCount < 0x1_0000_0000)
  {
    TextExactly(row);
    if row.destinationCallerId.Some? { BlankExactly(row.destinationCallerId.value); }
  }

  /** What an incomplete row lacks is named, once and in a fixed order. */
  lemma ReasonExactly(row: Row, timestamp: string, said: Option<string>) returns (words: seq<string>)
    requires SaysText(row, said) && EventOf(row, timestamp).Failure?
    ensures EventOf(row, timestamp).error == "missing " + Join(words)
    ensures words == (if Holds(row.handle) then [] else ["handle"])
                     + (if row.chatGuidCount == 1 && Holds(row.chatId) then [] else ["chat_id"])
                     + (if said.Some? then [] else ["text"])
  {
    TextExactly(row);
    words := Missing(row);
  }

  lemma JoinedWords(a: string, b: string, c: string)
    ensures Join([a]) == a && Join([a, b]) == a + ", " + b && Join([a, b, c]) == a + ", " + b + ", " + c
  {
    assert [a, b][1..] == [b] && [a, b, c][1..] == [b, c];
    assert Join([b, c]) == b + ", " + c;
    assert a + ", " + (b + ", " + c) == a + ", " + b + ", " + c;
  }

  /** The same letters, capitals turned small. */
  predicate SmallLetters(s: string, t: string) {
    |t| == |s| && forall k :: 0 <= k < |s| ==>
      t[k] == if 'A' <= s[k] <= 'Z' then (s[k] as int - 'A' as int + 'a' as int) as char else s[k]
  }

  lemma {:induction false} LowerExactly(s: string)
    ensures SmallLetters(s, Lower(s))
  {
    if s != "" {
      LowerExactly(s[1..]);
      forall k | 0 <= k < |s| ensures Lower(s)[k] == LowerChar(s[k]) {
        if k > 0 {
          assert Lower(s)[k] == Lower(s[1..])[k - 1] == LowerChar(s[1..][k - 1]);
        }
      }
    }
  }

  /** The protocol is the service in small letters without the white space around it; a missing
      or blank service stands for iMessage. */
  lemma ProtocolExactly(row: Row, timestamp: string, left: string, core: string, right: string)
    requires EventOf(row, timestamp).Success?
    requires row.service.Some? && Inked(row.service.value) ==>
               && row.service.value == left + core + right && AllSpace(left) && AllSpace(right)
               && core != "" && !IsSpace(core[0]) && !IsSpace(core[|core| - 1])
    ensures var protocol := EventOf(row, timestamp).value.protocol;
            protocol.Some?
            && if row.service.Some? && Inked(row.service.value) then SmallLetters(core, protocol.value)
               else protocol.value == "imessage"
  {
    if row.service.Some? {
      BlankExactly(row.service.value);
      if Inked(row.service.value) {
        TrimCore(left, core, right);
        LowerExactly(core);
      }
    }
  }

  // Outbound rows

  predicate ReadMark(isRead: int, dateRead: int) {
    isRead == 1 || dateRead > 0
  }

  predicate DeliveredMark(isDelivered: int, dateDelivered: int) {
    isDelivered == 1 || dateDelivered > 0
  }

  /** A row's status is read, delivered or sent by its marks, read before delivered; and as marks
      are only ever set, its rank never falls. */
  lemma StatusFollowsMarks(row: Row, row': Row)
    requires ReadMark(row.isRead, row.dateRead) ==> ReadMark(row'.isRead, row'.dateRead)
    requires DeliveredMark(row.isDelivered, row.dateDelivered) ==> DeliveredMark(row'.isDelivered, row'.dateDelivered)
    ensures InboundEvent.StatusOf(row) == Read <==> ReadMark(row.isRead, row.dateRead)
    ensures InboundEvent.StatusOf(row) == Delivered <==>
              !ReadMark(row.isRead, row.dateRead) && DeliveredMark(row.isDelivered, row.dateDelivered)
    ensures InboundEvent.StatusOf(row) in {Sent, Delivered, Read}
    ensures Rank(InboundEvent.StatusOf(row')) >= Rank(InboundEvent.StatusOf(row)) > Rank(Queued)
  {
  }
}
