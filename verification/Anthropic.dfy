/** Translating a prompt into the turns of the Anthropic messages API. */
module Anthropic {
  import opened Messages
  import opened PromptRepair
  import opened RepairNormalForm
  import opened KeepBoundary
  import opened TurnMerging

  datatype Block =
    | TextBlock(text: string)
    | ImageBlock(url: string)
    | ToolUse(id: string, name: string, input: string)
    | ToolResult(toolUseId: string, text: string)

  function UserBlocks(parts: seq<ContentPart>): seq<Block> {
    if parts == [] then []
    else (match parts[0]
          case TextPart(text) => [TextBlock(text)]
          case ImagePart(url) => [ImageBlock(url)]
          case UnusablePart => []) + UserBlocks(parts[1..])
  }

  function CallBlocks(calls: seq<ToolCall>): seq<Block> {
    if calls == [] then []
    else [ToolUse(calls[0].id, calls[0].name,
                  match calls[0].arguments
                  case Absent => "{}"
                  case Json(text) => text
                  case Malformed(text) => text)] + CallBlocks(calls[1..])
  }

  /** An API message needs at least one block. */
  function NonEmpty(blocks: seq<Block>): (r: seq<Block>)
    ensures r != []
  {
    if blocks == [] then [TextBlock("")] else blocks
  }

  const MID_CONVERSATION_PREFIX := "[System] "

  /** The blocks a message stands for. */
  function MessageBlocks(message: ChatMessage): (blocks: seq<Block>)
    ensures blocks != []
  {
    match message.role
    case Assistant =>
      NonEmpty((if ContentText(message.content) == "" then [] else [TextBlock(ContentText(message.content))]) +
               CallBlocks(message.toolCalls))
    case Tool => [ToolResult(message.toolCallId, ContentText(message.content))]
    case System => [TextBlock(MID_CONVERSATION_PREFIX + ContentText(message.content))]
    case _ =>
      if message.content.Parts? then NonEmpty(UserBlocks(message.content.parts))
      else [TextBlock(message.content.text)]
  }

  predicate Encodes(message: ChatMessage) {
    message.role == Assistant ==> forall call <- message.toolCalls :: !call.arguments.Malformed?
  }

  /** Encoding an assistant message fails as a whole when one of its calls carries malformed arguments. */
  function Translate(message: ChatMessage): Turn<Block> {
    Turn(message.role != Assistant, if Encodes(message) then Some(MessageBlocks(message)) else None)
  }

  function LeadingSystems(messages: seq<ChatMessage>): (n: nat)
    ensures n <= |messages|
    ensures forall i :: 0 <= i < n ==> messages[i].role == System
    ensures n < |messages| ==> messages[n].role != System
  {
    if messages == [] || messages[0].role != System then 0 else 1 + LeadingSystems(messages[1..])
  }

  function Remaining(messages: seq<ChatMessage>): seq<ChatMessage> {
    messages[LeadingSystems(messages)..]
  }

  function TranslateAll(messages: seq<ChatMessage>): (translated: seq<Turn<Block>>)
    ensures |translated| == |messages|
    ensures forall i :: 0 <= i < |messages| ==> translated[i] == Translate(messages[i])
  {
    if messages == [] then [] else [Translate(messages[0])] + TranslateAll(messages[1..])
  }

  function Translated(messages: seq<ChatMessage>): seq<Turn<Block>> {
    TranslateAll(Remaining(messages))
  }

  function Request(messages: seq<ChatMessage>): seq<Turn<Block>> {
    Turns(Translated(messages))
  }

  method ExtractSystemAndMessages(
    messages: seq<ChatMessage>) returns (systemBlocks: seq<string>, turns: seq<Turn<Block>>)
    ensures |systemBlocks| == LeadingSystems(messages)
    ensures forall i :: 0 <= i < |systemBlocks| ==> systemBlocks[i] == ContentText(messages[i].content)
    ensures turns == Request(messages)
  {
    systemBlocks := [];
    var remaining: seq<ChatMessage> := [];
    var leadingDone := false;
    for index := 0 to |messages|
      invariant |systemBlocks| <= index
      invariant forall i :: 0 <= i < |systemBlocks| ==>
        messages[i].role == System && systemBlocks[i] == ContentText(messages[i].content)
      invariant leadingDone ==> |systemBlocks| < index && messages[|systemBlocks|].role != System
      invariant !leadingDone ==> |systemBlocks| == index
      invariant remaining == messages[|systemBlocks|..index]
    {
      if !leadingDone && messages[index].role == System {
        systemBlocks := systemBlocks + [ContentText(messages[index].content)];
        continue;
      }
      leadingDone := true;
      remaining := remaining + [messages[index]];
    }
    LeadingSystemsIs(messages, |systemBlocks|);
    assert remaining == Remaining(messages);
    turns := MergeTurns(remaining);
  }

  method MergeTurns(remaining: seq<ChatMessage>) returns (turns: seq<Turn<Block>>)
    ensures turns == Turns(TranslateAll(remaining))
  {
    ghost var translated := TranslateAll(remaining);
    turns := [];
    for index := 0 to |remaining|
      invariant turns == Turns(translated[..index])
    {
      var next := Translate(remaining[index]);
      assert next == translated[index];
      assert translated[..index + 1][..index] == translated[..index];
      if |turns| > 0 && turns[|turns| - 1].user == next.user {
        turns := turns[..|turns| - 1] + [Merge(turns[|turns| - 1], next)];
      } else {
        turns := turns + [next];
      }
    }
    assert translated[..|remaining|] == translated;
  }

  lemma {:induction false} LeadingSystemsIs(messages: seq<ChatMessage>, n: nat)
    requires n <= |messages| && (n == |messages| || messages[n].role != System)
    requires forall i :: 0 <= i < n ==> messages[i].role == System
    ensures LeadingSystems(messages) == n
  {
    if n > 0 { LeadingSystemsIs(messages[1..], n - 1); }
  }

  lemma {:induction false} CallBlocksAreCalls(calls: seq<ToolCall>, id: string)
    ensures (exists call <- calls :: call.id == id) <==>
            (exists block <- CallBlocks(calls) :: block.ToolUse? && block.id == id)
    ensures forall block <- CallBlocks(calls) :: block.ToolUse?
  {
    if calls != [] {
      CallBlocksAreCalls(calls[1..], id);
      var first := CallBlocks(calls)[0];
      assert first in CallBlocks(calls) && first.ToolUse? && first.id == calls[0].id;
      assert calls == [calls[0]] + calls[1..];
      assert CallBlocks(calls) == [first] + CallBlocks(calls[1..]);
    }
  }

  lemma {:induction false} UserBlocksAreNoUses(parts: seq<ContentPart>)
    ensures forall block <- UserBlocks(parts) :: block.TextBlock? || block.ImageBlock?
  {
    if parts != [] { UserBlocksAreNoUses(parts[1..]); }
  }

  /** The tool uses of a message are its calls, and only assistants have any. */
  lemma {:induction false} ToolUsesAreCalls(message: ChatMessage, id: string)
    ensures (exists block <- MessageBlocks(message) :: block.ToolUse? && block.id == id) <==>
            message.role == Assistant && id in CallIds(message)
    ensures forall block <- MessageBlocks(message) :: block.ToolResult? ==>
            message.role == Tool && block.toolUseId == message.toolCallId
  {
    CallBlocksAreCalls(message.toolCalls, id);
    if message.content.Parts? { UserBlocksAreNoUses(message.content.parts); }
    if message.role == Assistant && id in CallIds(message) {
      var block :| block in CallBlocks(message.toolCalls) && block.ToolUse? && block.id == id;
      assert block in MessageBlocks(message);
    }
  }

  ghost predicate UsesTool(turn: Turn<Block>, id: string) {
    turn.content.Some? && exists block <- turn.content.value :: block.ToolUse? && block.id == id
  }

  ghost predicate HasResult(turn: Turn<Block>, id: string, text: string) {
    turn.content.Some? && ToolResult(id, text) in turn.content.value
  }

  /** Message `j` answers call `id` of message `i`, and the turn has its result with its text. */
  ghost predicate HasReply(turn: Turn<Block>, messages: seq<ChatMessage>, i: nat, j: nat, id: string) {
    i < j < |messages| && messages[i].role == Assistant && id in CallIds(messages[i]) && IsReply(messages, i, j, id) &&
    HasResult(turn, id, ContentText(messages[j].content))
  }

  ghost predicate HasSomeReply(turn: Turn<Block>, messages: seq<ChatMessage>, id: string) {
    exists i: nat, j: nat :: HasReply(turn, messages, i, j, id)
  }

  /** Turns strictly alternate, and each tool use is answered in the user turn right behind it, by the result
      and with the text that the prompt has for a call with its id. */
  ghost predicate WellFormedRequest(messages: seq<ChatMessage>) {
    var turns := Request(messages);
    Alternating(turns) &&
    forall t, id :: 0 <= t < |turns| && UsesTool(turns[t], id) ==>
      !turns[t].user && t + 1 < |turns| && turns[t + 1].user && HasSomeReply(turns[t + 1], messages, id)
  }

  lemma {:induction false} RequestIsWellFormed(messages: seq<ChatMessage>)
    requires Answered(messages)
    ensures WellFormedRequest(messages)
  {
    var remaining, turns := Remaining(messages), Request(messages);
    TurnsAlternate(TranslateAll(remaining));
    AnsweredSuffix(messages, LeadingSystems(messages));
    forall t, id | 0 <= t < |turns| && UsesTool(turns[t], id)
      ensures !turns[t].user && t + 1 < |turns| && turns[t + 1].user && HasSomeReply(turns[t + 1], messages, id)
    {
      var i, j := ToolUseIsAnswered(remaining, t, id);
      ReplyInPrompt(messages, turns[t + 1], i, j, id);
    }
  }

  lemma {:induction false} ReplyInPrompt(messages: seq<ChatMessage>, turn: Turn<Block>, i: nat, j: nat, id: string)
    requires HasReply(turn, Remaining(messages), i, j, id)
    ensures HasReply(turn, messages, LeadingSystems(messages) + i, LeadingSystems(messages) + j, id)
  {
    ReplyBehind(messages, LeadingSystems(messages), i, j, id);
  }

  lemma {:induction false} ReplyBehind(messages: seq<ChatMessage>, n: nat, i: nat, j: nat, id: string)
    requires n <= |messages| && i < j < |messages[n..]| && IsReply(messages[n..], i, j, id)
    ensures messages[n + i] == messages[n..][i] && messages[n + j] == messages[n..][j]
    ensures IsReply(messages, n + i, n + j, id)
  {
    forall k | n + i < k < n + j ensures messages[k].role != Assistant && messages[k].role != User {
      assert messages[k] == messages[n..][k - n];
    }
  }

  lemma {:induction false} AnswerIsInNextTurn(remaining: seq<ChatMessage>, i: nat, id: string) returns (j: nat)
    requires Answered(remaining) && i < |remaining|
    requires remaining[i].role == Assistant && id in CallIds(remaining[i])
    ensures var turns, t := Turns(TranslateAll(remaining)), TurnOf(TranslateAll(remaining), i);
      t + 1 < |turns| && turns[t + 1].user && HasReply(turns[t + 1], remaining, i, j, id)
  {
    AnsweredMeansInTurn(remaining);
    j :| i < j < |remaining| && IsReply(remaining, i, j, id);
    ReplyIsInNextTurn(remaining, i, j, id);
  }

  lemma {:induction false} UsersAlwaysEncode(remaining: seq<ChatMessage>)
    ensures UsersEncoded(TranslateAll(remaining))
    ensures (forall i :: 0 <= i < |remaining| ==> Encodes(remaining[i])) ==> AllEncoded(TranslateAll(remaining))
  {
  }

  /** Between an assistant and a tool message with no assistant in between, one role change happens. */
  lemma {:induction false} OneTurnApart(remaining: seq<ChatMessage>, i: nat, j: nat)
    requires i < j < |remaining| && remaining[i].role == Assistant
    requires forall k :: i < k <= j ==> remaining[k].role != Assistant
    ensures TurnOf(TranslateAll(remaining), j) == TurnOf(TranslateAll(remaining), i) + 1
  {
    NextTurn(TranslateAll(remaining), i, j);
  }

  lemma {:induction false} ResultArrives(remaining: seq<ChatMessage>, j: nat)
    requires j < |remaining| && remaining[j].role == Tool
    ensures var turns, t := Turns(TranslateAll(remaining)), TurnOf(TranslateAll(remaining), j);
      t < |turns| && turns[t].user &&
      HasResult(turns[t], remaining[j].toolCallId, ContentText(remaining[j].content))
  {
    var translated := TranslateAll(remaining);
    var result := ToolResult(remaining[j].toolCallId, ContentText(remaining[j].content));
    UsersAlwaysEncode(remaining);
    BlocksArrive(translated, j, result);
  }

  lemma {:induction false} UseArrives(remaining: seq<ChatMessage>, call: nat, id: string)
    requires forall i :: 0 <= i < |remaining| ==> Encodes(remaining[i])
    requires call < |remaining| && remaining[call].role == Assistant && id in CallIds(remaining[call])
    ensures var turns, t := Turns(TranslateAll(remaining)), TurnOf(TranslateAll(remaining), call);
      t < |turns| && UsesTool(turns[t], id)
  {
    ToolUsesAreCalls(remaining[call], id);
    var use :| use in MessageBlocks(remaining[call]) && use.ToolUse? && use.id == id;
    UsersAlwaysEncode(remaining);
    BlocksArrive(TranslateAll(remaining), call, use);
  }

  lemma {:induction false} ReplyIsInNextTurn(remaining: seq<ChatMessage>, i: nat, j: nat, id: string)
    requires i < j < |remaining| && remaining[i].role == Assistant && IsReply(remaining, i, j, id)
    ensures var turns, t := Turns(TranslateAll(remaining)), TurnOf(TranslateAll(remaining), i);
      t + 1 < |turns| && turns[t + 1].user && HasResult(turns[t + 1], id, ContentText(remaining[j].content))
  {
    assert remaining[j].role == Tool && remaining[j].toolCallId == id;
    OneTurnApart(remaining, i, j);
    ResultArrives(remaining, j);
    assert TurnOf(TranslateAll(remaining), j) == TurnOf(TranslateAll(remaining), i) + 1;
  }

  /** A use was said by the assistant that made the call, a result by the tool message that answers it. */
  lemma {:induction false} ContributedBy(remaining: seq<ChatMessage>, i: nat, t: nat, block: Block)
    requires i < |remaining| && Contributes(TranslateAll(remaining), i, t, block)
    ensures block.ToolUse? ==>
      remaining[i].role == Assistant && block.id in CallIds(remaining[i]) && !TranslateAll(remaining)[i].user
    ensures block.ToolResult? ==> remaining[i].role == Tool && block.toolUseId == remaining[i].toolCallId
  {
    assert block in MessageBlocks(remaining[i]);
    ToolUsesAreCalls(remaining[i], if block.ToolUse? then block.id else "");
  }

  lemma {:induction false} ToolUseIsAnswered(remaining: seq<ChatMessage>, t: nat, id: string) returns (i: nat, j: nat)
    requires Answered(remaining)
    requires t < |Turns(TranslateAll(remaining))| && UsesTool(Turns(TranslateAll(remaining))[t], id)
    ensures var turns := Turns(TranslateAll(remaining));
      !turns[t].user && t + 1 < |turns| && turns[t + 1].user && HasReply(turns[t + 1], remaining, i, j, id)
  {
    var translated := TranslateAll(remaining);
    var use :| use in Turns(translated)[t].content.value && use.ToolUse? && use.id == id;
    BlocksComeFrom(translated, t, use);
    i :| 0 <= i < |translated| && Contributes(translated, i, t, use);
    ContributedBy(remaining, i, t, use);
    j := AnswerIsInNextTurn(remaining, i, id);
  }

  lemma {:induction false} ShapedBehindSystems(messages: seq<ChatMessage>)
    requires Shaped(messages, {})
    ensures Shaped(Remaining(messages), {})
  {
    if messages != [] && messages[0].role == System {
      ShapedBehindSystems(messages[1..]);
      assert Remaining(messages) == Remaining(messages[1..]);
    } else {
      assert Remaining(messages) == messages;
    }
  }

  lemma {:induction false} ResultIsInTurnBehindUse(remaining: seq<ChatMessage>, j: nat)
    requires Shaped(remaining, {}) && forall i :: 0 <= i < |remaining| ==> Encodes(remaining[i])
    requires j < |remaining| && remaining[j].role == Tool && remaining[j].toolCallId != ""
    ensures var turns, t := Turns(TranslateAll(remaining)), TurnOf(TranslateAll(remaining), j);
      0 < t <= |turns| && UsesTool(turns[t - 1], remaining[j].toolCallId)
  {
    ShapedMeansEveryResultPairs(remaining);
    var call :| IsTurnPair(remaining, call, j);
    OneTurnApart(remaining, call, j);
    UseArrives(remaining, call, remaining[j].toolCallId);
  }

  /** In a shaped prompt each result also answers a use of the assistant turn right before it. */
  lemma {:induction false} ResultFollowsItsUse(messages: seq<ChatMessage>, t: nat, id: string, text: string)
    requires Shaped(messages, {}) && id != ""
    requires forall i :: 0 <= i < |messages| ==> Encodes(messages[i])
    requires t < |Request(messages)| && HasResult(Request(messages)[t], id, text)
    ensures t > 0 && UsesTool(Request(messages)[t - 1], id)
  {
    var remaining := Remaining(messages);
    var translated := TranslateAll(remaining);
    var result := ToolResult(id, text);
    BlocksComeFrom(translated, t, result);
    var j :| 0 <= j < |translated| && Contributes(translated, j, t, result);
    ContributedBy(remaining, j, t, result);
    ShapedBehindSystems(messages);
    ResultIsInTurnBehindUse(remaining, j);
  }

  // ---------------------------------------------------------------------------------------
  // No block is lost, except where arguments are malformed.
  // ---------------------------------------------------------------------------------------

  function AllBlocks(messages: seq<ChatMessage>): seq<Block> {
    if messages == [] then [] else MessageBlocks(messages[0]) + AllBlocks(messages[1..])
  }

  lemma {:induction false} BlocksFromFront(turns: seq<Turn<Block>>)
    requires turns != []
    ensures Blocks(turns) == (if turns[0].content.Some? then turns[0].content.value else []) + Blocks(turns[1..])
  {
    var last := |turns| - 1;
    if last > 0 {
      BlocksFromFront(turns[..last]);
      assert turns[..last][1..] == turns[1..][..last - 1];
    }
  }

  lemma {:induction false} EncodedBlocks(messages: seq<ChatMessage>)
    ensures var translated := TranslateAll(messages);
      if AllEncoded(translated) then Blocks(translated) == AllBlocks(messages)
      else |Blocks(translated)| < |AllBlocks(messages)|
  {
    if messages != [] {
      var translated := TranslateAll(messages);
      EncodedBlocks(messages[1..]);
      BlocksFromFront(translated);
      assert translated[1..] == TranslateAll(messages[1..]);
      assert AllEncoded(translated) <==> Encodes(messages[0]) && AllEncoded(translated[1..]) by {
        assert translated == [translated[0]] + translated[1..];
      }
    }
  }

  lemma {:induction false} SystemsEncode(messages: seq<ChatMessage>)
    ensures AllEncoded(TranslateAll(Remaining(messages))) <==>
            (forall i :: 0 <= i < |messages| ==> Encodes(messages[i]))
  {
    if messages != [] && messages[0].role == System {
      SystemsEncode(messages[1..]);
      assert Encodes(messages[0]);
      assert (forall i :: 0 <= i < |messages| ==> Encodes(messages[i])) <==>
        (forall i :: 0 <= i < |messages[1..]| ==> Encodes(messages[1..][i])) by {
        assert messages == [messages[0]] + messages[1..];
      }
      assert Remaining(messages) == Remaining(messages[1..]);
    } else {
      assert Remaining(messages) == messages;
      assert forall i :: 0 <= i < |messages| ==> TranslateAll(messages)[i] == Translate(messages[i]);
    }
  }

  /** Every block reaches the request, in order, if and only if no call has malformed arguments. */
  lemma {:induction false} NoBlockLostIffArgumentsEncode(messages: seq<ChatMessage>)
    ensures Blocks(Request(messages)) == AllBlocks(Remaining(messages)) <==>
            (forall i :: 0 <= i < |messages| ==> Encodes(messages[i]))
  {
    var remaining := Remaining(messages);
    MergingKeepsBlocks(TranslateAll(remaining));
    EncodedBlocks(remaining);
    SystemsEncode(messages);
  }
}
