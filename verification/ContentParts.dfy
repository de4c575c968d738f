/** What each message of a prompt says in a Gemini request, in terms of the message's own fields. */
module ContentParts {
  import opened Messages
  import opened TurnMerging
  import opened Gemini

  ghost predicate MakesCall(part: Part, call: ToolCall) {
    part.FunctionCall? && part.name == call.name &&
    part.arguments == if call.arguments.Absent? then "{}" else call.arguments.text
  }

  ghost predicate MakesCalls(parts: seq<Part>, calls: seq<ToolCall>) {
    |parts| == |calls| && forall k :: 0 <= k < |calls| ==> MakesCall(parts[k], calls[k])
  }

  /** One part for each text and each image, in order. */
  ghost predicate ShowsParts(parts: seq<Part>, content: seq<ContentPart>) {
    if content == [] then parts == []
    else if content[0].UnusablePart? then ShowsParts(parts, content[1..])
    else
      parts != [] && ShowsParts(parts[1..], content[1..]) &&
      (content[0].TextPart? ==> parts[0] == TextPiece(content[0].text)) &&
      (content[0].ImagePart? ==> parts[0] == MediaPiece(content[0].url))
  }

  /** The parts are the given ones, or one of an empty text where there are none. */
  ghost predicate OrEmptyText(parts: seq<Part>, said: seq<Part>) {
    parts == if said == [] then [TextPiece("")] else said
  }

  ghost predicate SaidByAssistant(parts: seq<Part>, message: ChatMessage, calls: seq<Part>) {
    MakesCalls(calls, message.toolCalls) &&
    OrEmptyText(parts,
      if ContentText(message.content) == "" then calls else [TextPiece(ContentText(message.content))] + calls)
  }

  /** The parts say what the message does: an assistant its text and then its calls, a tool the response to the
      function it names, a user its text or its parts. */
  ghost predicate Says(parts: seq<Part>, message: ChatMessage) {
    (message.role == Assistant ==> exists calls: seq<Part> :: SaidByAssistant(parts, message, calls)) &&
    (message.role == Tool ==> parts == [FunctionResponse(message.name, ContentText(message.content))]) &&
    (message.role == User ==>
      if message.content.Text? then parts == [TextPiece(message.content.text)]
      else exists shown: seq<Part> :: ShowsParts(shown, message.content.parts) && OrEmptyText(parts, shown))
  }

  lemma {:induction false} CallPartsMakeCalls(calls: seq<ToolCall>)
    ensures MakesCalls(CallParts(calls), calls)
  {
    if calls != [] {
      CallPartsMakeCalls(calls[1..]);
      assert forall k :: 0 < k < |calls| ==> calls[k] == calls[1..][k - 1];
      assert CallParts(calls)[1..] == CallParts(calls[1..]);
    }
  }

  lemma {:induction false} UserPartsShowParts(content: seq<ContentPart>)
    ensures ShowsParts(UserParts(content), content)
  {
    if content != [] {
      UserPartsShowParts(content[1..]);
      if content[0].UnusablePart? {
        assert UserParts(content) == UserParts(content[1..]);
      } else {
        assert UserParts(content)[1..] == UserParts(content[1..]);
      }
    }
  }

  lemma {:induction false} PartsSayMessage(message: ChatMessage)
    requires Speaks(message)
    ensures Says(MessageParts(message), message)
  {
    var calls := CallParts(message.toolCalls);
    CallPartsMakeCalls(message.toolCalls);
    assert [] + calls == calls;
    if message.role == Assistant { assert SaidByAssistant(MessageParts(message), message, calls); }
    if message.content.Parts? { UserPartsShowParts(message.content.parts); }
  }

  lemma {:induction false} SpokenAt(messages: seq<ChatMessage>, j: nat) returns (i: nat)
    requires j < |messages| && messages[j].role in {User, Assistant, Tool}
    ensures i < |Spoken(messages)| && Spoken(messages)[i] == messages[j]
  {
    i := 0;
    if j > 0 {
      i := SpokenAt(messages[1..], j - 1);
      if Speaks(messages[0]) { i := i + 1; }
    }
  }

  ghost predicate SaidInTurn(contents: seq<Turn<Part>>, t: nat, message: ChatMessage) {
    t < |contents| && contents[t].content.Some? && contents[t].user == (message.role != Assistant) &&
    exists parts: seq<Part> :: Says(parts, message) && Within(parts, contents[t].content.value)
  }

  /** Each user, assistant and tool message says what it has to say, in one content of the request. */
  lemma {:induction false} EveryMessageIsSaid(messages: seq<ChatMessage>, j: nat) returns (t: nat)
    requires j < |messages| && messages[j].role in {User, Assistant, Tool}
    ensures SaidInTurn(Contents(messages), t, messages[j])
  {
    var i := SpokenAt(messages, j);
    var translated := TranslateAll(Spoken(messages));
    t := TurnOf(translated, i);
    MessageStaysTogether(translated, i);
    PartsSayMessage(messages[j]);
    assert translated[i].content.value == MessageParts(messages[j]);
  }
}
