/** What each message of a prompt says in an Anthropic request, in terms of the message's own fields. */
module RequestBlocks {
  import opened Messages
  import opened TurnMerging
  import opened Anthropic

  /** The block makes the call, with an empty object for absent arguments. */
  ghost predicate MakesCall(block: Block, call: ToolCall) {
    block.ToolUse? && block.id == call.id && block.name == call.name &&
    (call.arguments.Absent? ==> block.input == "{}") &&
    (call.arguments.Json? ==> block.input == call.arguments.text)
  }

  ghost predicate MakesCalls(blocks: seq<Block>, calls: seq<ToolCall>) {
    |blocks| == |calls| &&
    forall k :: 0 <= k < |calls| && !calls[k].arguments.Malformed? ==> MakesCall(blocks[k], calls[k])
  }

  /** One block for each text and each image, in order. */
  ghost predicate ShowsParts(blocks: seq<Block>, parts: seq<ContentPart>) {
    if parts == [] then blocks == []
    else if parts[0].UnusablePart? then ShowsParts(blocks, parts[1..])
    else
      blocks != [] && ShowsParts(blocks[1..], parts[1..]) &&
      (parts[0].TextPart? ==> blocks[0] == TextBlock(parts[0].text)) &&
      (parts[0].ImagePart? ==> blocks[0] == ImageBlock(parts[0].url))
  }

  /** The blocks are the given ones, or one of an empty text where there are none. */
  ghost predicate OrEmptyText(blocks: seq<Block>, said: seq<Block>) {
    blocks == if said == [] then [TextBlock("")] else said
  }

  ghost predicate SaidByAssistant(blocks: seq<Block>, message: ChatMessage, calls: seq<Block>) {
    MakesCalls(calls, message.toolCalls) &&
    OrEmptyText(blocks,
      if ContentText(message.content) == "" then calls else [TextBlock(ContentText(message.content))] + calls)
  }

  /** The blocks say what the message does: an assistant its text and then its calls, a tool its result, a system
      message its text behind the mark of one, and any other its text or its parts. */
  ghost predicate Says(blocks: seq<Block>, message: ChatMessage) {
    (message.role == Assistant ==> exists calls: seq<Block> :: SaidByAssistant(blocks, message, calls)) &&
    (message.role == Tool ==> blocks == [ToolResult(message.toolCallId, ContentText(message.content))]) &&
    (message.role == System ==> blocks == [TextBlock("[System] " + ContentText(message.content))]) &&
    (message.role == User || message.role == Other ==>
      if message.content.Text? then blocks == [TextBlock(message.content.text)]
      else exists shown: seq<Block> :: ShowsParts(shown, message.content.parts) && OrEmptyText(blocks, shown))
  }

  lemma {:induction false} CallBlocksMakeCalls(calls: seq<ToolCall>)
    ensures MakesCalls(CallBlocks(calls), calls)
  {
    if calls != [] {
      CallBlocksMakeCalls(calls[1..]);
      assert forall k :: 0 < k < |calls| ==> calls[k] == calls[1..][k - 1];
      assert CallBlocks(calls)[1..] == CallBlocks(calls[1..]);
    }
  }

  lemma {:induction false} UserBlocksShowParts(parts: seq<ContentPart>)
    ensures ShowsParts(UserBlocks(parts), parts)
  {
    if parts != [] {
      UserBlocksShowParts(parts[1..]);
      if parts[0].UnusablePart? {
        assert UserBlocks(parts) == UserBlocks(parts[1..]);
      } else {
        assert UserBlocks(parts)[1..] == UserBlocks(parts[1..]);
      }
    }
  }

  lemma {:induction false} BlocksSayMessage(message: ChatMessage)
    ensures Says(MessageBlocks(message), message)
  {
    var text, calls := ContentText(message.content), CallBlocks(message.toolCalls);
    CallBlocksMakeCalls(message.toolCalls);
    assert [] + calls == calls;
    if message.role == Assistant { assert SaidByAssistant(MessageBlocks(message), message, calls); }
    if message.content.Parts? { UserBlocksShowParts(message.content.parts); }
  }

  /** The text of a message is its own, or that of its parts, joined. */
  lemma {:induction false} TextOfParts(left: seq<ContentPart>, right: seq<ContentPart>, part: ContentPart, text: string)
    ensures ContentText(Text(text)) == text
    ensures ContentText(Parts(left + right)) == ContentText(Parts(left)) + ContentText(Parts(right))
    ensures ContentText(Parts([part])) == (if part.TextPart? then part.text else "")
  {
    if left == [] {
      assert left + right == right;
    } else {
      assert (left + right)[1..] == left[1..] + right;
      TextOfParts(left[1..], right, part, text);
    }
    assert [part][1..] == [] && JoinTexts([]) == "";
  }

  /** What message `j` says stands together in a turn of its role. */
  ghost predicate SaidInTurn(turns: seq<Turn<Block>>, t: nat, message: ChatMessage) {
    t < |turns| && turns[t].content.Some? && turns[t].user == (message.role != Assistant) &&
    exists blocks: seq<Block> :: Says(blocks, message) && Within(blocks, turns[t].content.value)
  }

  /** Each message behind the leading system messages says what it has to say, in one turn of the request; an
      assistant, as long as no arguments in the prompt are malformed. */
  lemma {:induction false} EveryMessageIsSaid(messages: seq<ChatMessage>, j: nat) returns (t: nat)
    requires LeadingSystems(messages) <= j < |messages|
    requires messages[j].role == Assistant ==> forall i :: 0 <= i < |messages| ==> Encodes(messages[i])
    ensures SaidInTurn(Request(messages), t, messages[j])
  {
    var remaining, at := Remaining(messages), j - LeadingSystems(messages);
    var translated := TranslateAll(remaining);
    assert remaining[at] == messages[j];
    UsersAlwaysEncode(remaining);
    t := TurnOf(translated, at);
    MessageStaysTogether(translated, at);
    BlocksSayMessage(messages[j]);
    assert translated[at].content.value == MessageBlocks(messages[j]);
  }
}
