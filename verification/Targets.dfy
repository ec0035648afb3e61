/** What puts a chat.db row on the target of a send, in terms of the values the query joins:
    the handles and the chat guids of the row. */
module Targets {
  import opened Wrappers
  import opened Utf8
  import opened Strings
  import opened Model
  import opened Resolver
  import opened AttributedBody

  /** `group_concat`: the values with a comma between each two. */
  function Concat(values: seq<string>): string
    requires values != []
  {
    if |values| == 1 then values[0] else values[0] + "," + Concat(values[1..])
  }

  predicate CommaFree(values: seq<string>) {
    forall k :: 0 <= k < |values| ==> ',' !in values[k]
  }

  /** The column for these values; NULL when there are none. */
  predicate Lists(column: Option<string>, values: seq<string>) {
    if values == [] then column == None else column == Some(Concat(values)) && CommaFree(values)
  }

  lemma {:induction false} SplitFirst(value: string, rest: string)
    requires ',' !in value
    ensures Split(value + "," + rest, ',') == [value] + Split(rest, ',')
  {
    var joined := value + "," + rest;
    if value == "" {
      assert joined == "," + rest;
      assert joined[1..] == rest;
    } else {
      SplitFirst(value[1..], rest);
      assert joined[1..] == value[1..] + "," + rest;
      assert value == [value[0]] + value[1..];
    }
  }

  lemma {:induction false} SplitOne(value: string)
    requires ',' !in value
    ensures Split(value, ',') == [value]
  {
    if value != "" {
      SplitOne(value[1..]);
      assert value == [value[0]] + value[1..];
    }
  }

  /** Splitting at commas gives back values that hold none. */
  lemma {:induction false} SplitInverts(values: seq<string>)
    requires values != [] && CommaFree(values)
    ensures Split(Concat(values), ',') == values
  {
    if |values| == 1 {
      SplitOne(values[0]);
    } else {
      SplitFirst(values[0], Concat(values[1..]));
      SplitInverts(values[1..]);
      assert values == [values[0]] + values[1..];
    }
  }

  lemma OnTarget(row: CandidateRow, chats: seq<string>, handles: seq<string>)
    requires Lists(row.chatGuidsCsv, chats) && Lists(row.handlesCsv, handles)
    ensures forall id :: row.MatchesTarget(Chat(id)) <==> id in chats
    ensures forall to :: row.MatchesTarget(Handle(to)) <==> to in handles
    ensures row.ChatGuidSet() == set id | id in chats && id != ""
  {
    if chats != [] { SplitInverts(chats); }
    if handles != [] { SplitInverts(handles); }
  }

  /** The values joined into each row. */
  datatype Joined = Joined(chats: seq<string>, handles: seq<string>)
  {
    predicate Of(row: CandidateRow) {
      Lists(row.chatGuidsCsv, chats) && Lists(row.handlesCsv, handles)
    }

    predicate Reaches(target: SendTarget) {
      match target
      case Chat(id) => id in chats
      case Handle(to) => to in handles
    }
  }

  ghost predicate AllJoined(rows: seq<CandidateRow>, joined: seq<Joined>) {
    |joined| == |rows| && forall k :: 0 <= k < |rows| ==> joined[k].Of(rows[k])
  }

  /** The one chat of a row, if it has one. */
  ghost predicate OnlyChat(chats: seq<string>, id: string) {
    id in chats && id != "" && forall other :: other in chats && other != "" ==> other == id
  }

  /** The answer for a row: its ROWID and guid; for a chat send the chat it was sent to, when the
      row is in it, and for a handle send the one chat of the row, when it has one. */
  ghost predicate AnswersWith(r: ResolvedRow, row: CandidateRow, joined: Joined, target: SendTarget) {
    r.rowid == row.rowid && r.guid == row.guid
    && match target
       case Chat(id) => r.chatId == if id in joined.chats then Some(id) else None
       case Handle(_) =>
         if r.chatId.Some? then OnlyChat(joined.chats, r.chatId.value) else forall id :: !OnlyChat(joined.chats, id)
  }

  lemma AnswerIs(row: CandidateRow, joined: Joined, target: SendTarget)
    requires joined.Of(row)
    ensures AnswersWith(row.Resolved(target), row, joined, target)
  {
    OnTarget(row, joined.chats, joined.handles);
    if target.Chat? {
      assert row.MatchesTarget(target) <==> row.HasChatGuid(target.chatId);
    } else {
      forall id ensures row.ResolvedChatId(target) == Some(id) <==> OnlyChat(joined.chats, id) {
        HandleChatId(row, target.to, id);
        OneElement(row.ChatGuidSet(), joined.chats, id);
      }
    }
  }

  lemma OneElement(guids: set<string>, chats: seq<string>, id: string)
    requires guids == set other | other in chats && other != ""
    ensures guids == {id} <==> OnlyChat(chats, id)
  {
    if guids == {id} {
      assert id in guids;
      forall other | other in chats && other != "" ensures other == id { assert other in guids; }
    }
    if OnlyChat(chats, id) {
      assert forall other :: other in guids ==> other == id;
      assert id in guids;
    }
  }

  lemma TargetIs(row: CandidateRow, joined: Joined, target: SendTarget)
    requires joined.Of(row)
    ensures row.MatchesTarget(target) <==> joined.Reaches(target)
  {
    OnTarget(row, joined.chats, joined.handles);
  }

  /** The only row that reaches the target is the answer, at any attempt, whatever its text and
      whatever else the query returned. */
  lemma OnlyRowOnTarget(rows: seq<CandidateRow>, joined: seq<Joined>, text: string, target: SendTarget, last: bool, k: nat)
    requires AllJoined(rows, joined) && k < |rows| && joined[k].Reaches(target)
    requires forall l :: 0 <= l < |rows| && l != k ==> !joined[l].Reaches(target)
    ensures SelectCandidate(rows, text, target, last).Unique?
    ensures AnswersWith(SelectCandidate(rows, text, target, last).row, rows[k], joined[k], target)
  {
    forall l | 0 <= l < |rows| ensures rows[l].MatchesTarget(target) <==> joined[l].Reaches(target) {
      TargetIs(rows[l], joined[l], target);
    }
    OnceAt(rows, k);
    assert OnlyOne(rows, Test.OnTarget, text, target, rows[k]);
    PickedIsSelected(rows, text, target, last, rows[k]);
    AnswerIs(rows[k], joined[k], target);
  }

  lemma OnceAt<T(!new)>(rows: seq<T>, k: nat)
    requires k < |rows| && forall l :: 0 <= l < |rows| && l != k ==> rows[l] != rows[k]
    ensures multiset(rows)[rows[k]] == 1
  {
    assert rows == rows[..k] + [rows[k]] + rows[k + 1..];
    assert rows[k] !in rows[..k] && rows[k] !in rows[k + 1..];
    assert rows[k] !in multiset(rows[..k]) && rows[k] !in multiset(rows[k + 1..]);
  }

  /** Before the last attempt a send waits as long as no row reaches its target. */
  lemma NoRowOnTarget(rows: seq<CandidateRow>, joined: seq<Joined>, text: string, target: SendTarget)
    requires AllJoined(rows, joined) && forall l :: 0 <= l < |rows| ==> !joined[l].Reaches(target)
    ensures SelectCandidate(rows, text, target, false) == Pending
  {
    forall l | 0 <= l < |rows| ensures !rows[l].MatchesTarget(target) {
      TargetIs(rows[l], joined[l], target);
    }
    NothingPasses(rows, Test.OnTarget, text, target);
    NothingPasses(rows, OnBoth, text, target);
  }

  lemma {:induction false} NothingPasses(rows: seq<CandidateRow>, test: Test, text: string, target: SendTarget)
    requires !test.OnText? && forall l :: 0 <= l < |rows| ==> !rows[l].MatchesTarget(target)
    ensures Filter(rows, test, text, target) == []
  {
    if rows != [] { NothingPasses(rows[1..], test, text, target); }
  }

  /** What a row says: its text, or, when that is missing or empty, the text that its attributed
      body holds behind a one-byte length. */
  ghost predicate Says(row: CandidateRow, said: Option<string>) {
    if row.text.Some? && row.text.value != "" then said == row.text
    else if row.body.None? then said == None
    else
      said.Some? && |Encode(said.value)| < 256
      && exists prefix: seq<byte>, gap: seq<byte>, trailing: seq<byte> ::
           NoMarker(prefix) && Inert(gap) && |gap| < REACH
           && row.body.value == prefix + MARKER + (gap + ShortToken(Encode(said.value), trailing))
  }

  lemma TextIs(row: CandidateRow, said: Option<string>)
    requires Says(row, said)
    ensures row.MessageText() == said
  {
    if (row.text.None? || row.text.value == "") && row.body.Some? {
      var prefix: seq<byte>, gap: seq<byte>, trailing: seq<byte> :|
        NoMarker(prefix) && Inert(gap) && |gap| < REACH
        && row.body.value == prefix + MARKER + (gap + ShortToken(Encode(said.value), trailing));
      ShortRoundTrip(prefix, gap, said.value, trailing);
    }
  }

  ghost predicate AllSay(rows: seq<CandidateRow>, said: seq<Option<string>>) {
    |said| == |rows| && forall k :: 0 <= k < |rows| ==> Says(rows[k], said[k])
  }

  /** Among several rows on the target the text decides: the only one that says it is the answer. */
  lemma TextDecides(rows: seq<CandidateRow>, joined: seq<Joined>, said: seq<Option<string>>, text: string,
                    target: SendTarget, last: bool, k: nat)
    requires AllJoined(rows, joined) && AllSay(rows, said)
    requires k < |rows| && joined[k].Reaches(target) && said[k] == Some(text)
    requires forall l :: 0 <= l < |rows| && l != k && joined[l].Reaches(target) ==> said[l] != Some(text)
    ensures SelectCandidate(rows, text, target, last).Unique?
    ensures AnswersWith(SelectCandidate(rows, text, target, last).row, rows[k], joined[k], target)
  {
    forall l | 0 <= l < |rows|
      ensures Passes(rows[l], OnBoth, text, target) <==> joined[l].Reaches(target) && said[l] == Some(text)
    {
      TargetIs(rows[l], joined[l], target);
      TextIs(rows[l], said[l]);
    }
    OnceAt(rows, k);
    assert OnlyOne(rows, OnBoth, text, target, rows[k]);
    PickedIsSelected(rows, text, target, last, rows[k]);
    AnswerIs(rows[k], joined[k], target);
  }

  /** Off its target a row is taken only on the last attempt, alone, and when it says the text. */
  lemma LoneRowOffTarget(row: CandidateRow, joined: Joined, said: Option<string>, text: string, target: SendTarget, last: bool)
    requires joined.Of(row) && Says(row, said) && !joined.Reaches(target)
    ensures var answer := SelectCandidate([row], text, target, last);
            if last && said == Some(text) then answer.Unique? && AnswersWith(answer.row, row, joined, target)
            else answer == Pending
  {
    TargetIs(row, joined, target);
    TextIs(row, said);
    SingleRow(row, text, target);
    AnswerIs(row, joined, target);
  }
}
