/** The two repairs every prompt goes through: answering interrupted tool calls and
    dropping tool results that no call announced. */
module PromptRepair {
  import opened Messages

  const INTERRUPTED := "Tool call was interrupted and did not complete."

  function Synthetic(call: ToolCall): ChatMessage {
    ChatMessage(Tool, Text(INTERRUPTED), [], call.id, call.name, "")
  }

  ghost predicate IsSynthetic(message: ChatMessage) {
    exists call :: message == Synthetic(call)
  }

  ghost predicate AllTools(messages: seq<ChatMessage>) {
    forall i :: 0 <= i < |messages| ==> messages[i].role == Tool
  }

  function ResultIds(messages: seq<ChatMessage>): set<string> {
    set message | message in messages :: message.toolCallId
  }

  /** The ids of the tool results that arrive before the next assistant or user message. */
  function Replies(messages: seq<ChatMessage>): set<string> {
    if messages == [] || messages[0].role == Assistant || messages[0].role == User then {}
    else (if messages[0].role == Tool then {messages[0].toolCallId} else {}) + Replies(messages[1..])
  }

  /** Synthetic results for the calls that are not answered, in call order. */
  function Missing(calls: seq<ToolCall>, answered: set<string>): (results: seq<ChatMessage>)
    ensures AllTools(results)
  {
    if calls == [] then []
    else (if calls[0].id in answered then [] else [Synthetic(calls[0])]) + Missing(calls[1..], answered)
  }

  /** `results` placed behind the tool messages that `messages` starts with. */
  function InsertBehindToolRun(messages: seq<ChatMessage>, results: seq<ChatMessage>): seq<ChatMessage> {
    if messages != [] && messages[0].role == Tool
    then [messages[0]] + InsertBehindToolRun(messages[1..], results)
    else results + messages
  }

  /** Every interrupted call gets a synthetic result; a result without an id answers nothing. */
  function Fix(messages: seq<ChatMessage>): seq<ChatMessage> {
    if messages == [] then []
    else
      var rest := Fix(messages[1..]);
      if messages[0].role != Assistant then [messages[0]] + rest
      else [messages[0]] + InsertBehindToolRun(rest, Missing(messages[0].toolCalls, Replies(rest) - {""}))
  }

  predicate Orphan(message: ChatMessage, announced: set<string>) {
    message.role == Tool && message.toolCallId != "" && message.toolCallId !in announced
  }

  /** Tool results announced neither in `announced` nor earlier in the prompt are dropped. */
  function Drop(messages: seq<ChatMessage>, announced: set<string>): seq<ChatMessage> {
    if messages == [] then []
    else
      var announced' := announced + CallIds(messages[0]);
      (if Orphan(messages[0], announced') then [] else [messages[0]]) + Drop(messages[1..], announced')
  }

  function Repair(messages: seq<ChatMessage>): seq<ChatMessage> {
    Drop(Fix(messages), {})
  }

  // ---------------------------------------------------------------------------------------
  // The loops of the source.
  // ---------------------------------------------------------------------------------------

  method CollectReplies(messages: seq<ChatMessage>, start: nat) returns (answered: set<string>)
    requires start <= |messages|
    ensures answered == Replies(messages[start..]) - {""}
  {
    answered := {};
    var index := start;
    while index < |messages|
      invariant start <= index <= |messages|
      invariant answered + (Replies(messages[index..]) - {""}) == Replies(messages[start..]) - {""}
    {
      assert messages[index..][1..] == messages[index + 1..];
      if messages[index].role == Tool && messages[index].toolCallId != "" {
        answered := answered + {messages[index].toolCallId};
      }
      if messages[index].role == Assistant || messages[index].role == User {
        break;
      }
      index := index + 1;
    }
  }

  method SynthesizeMissing(calls: seq<ToolCall>, answered: set<string>) returns (results: seq<ChatMessage>)
    ensures results == Missing(calls, answered)
  {
    results := [];
    for index := 0 to |calls|
      invariant results + Missing(calls[index..], answered) == Missing(calls, answered)
    {
      if calls[index].id !in answered {
        results := results + [Synthetic(calls[index])];
      }
    }
  }

  lemma {:induction false} InsertAtRunEnd(messages: seq<ChatMessage>, results: seq<ChatMessage>, run: nat)
    requires run <= |messages| && AllTools(messages[..run])
    requires run == |messages| || messages[run].role != Tool
    ensures InsertBehindToolRun(messages, results) == messages[..run] + results + messages[run..]
  {
    if run > 0 {
      assert messages[0] == messages[..run][0];
      assert messages[..run] == [messages[0]] + messages[1..][..run - 1];
      assert messages[1..][..run - 1] == messages[..run][1..];
      InsertAtRunEnd(messages[1..], results, run - 1);
    }
  }

  method InsertSynthetic(messages: seq<ChatMessage>, start: nat, synthetic: seq<ChatMessage>)
    returns (result: seq<ChatMessage>)
    requires start <= |messages|
    ensures result == messages[..start] + InsertBehindToolRun(messages[start..], synthetic)
  {
    var insertAt := start;
    while insertAt < |messages| && messages[insertAt].role == Tool
      invariant start <= insertAt <= |messages|
      invariant forall i :: start <= i < insertAt ==> messages[i].role == Tool
    {
      insertAt := insertAt + 1;
    }
    result := messages[..insertAt] + synthetic + messages[insertAt..];
    var rest, run := messages[start..], insertAt - start;
    assert rest[..run] == messages[start..insertAt] && rest[run..] == messages[insertAt..];
    InsertAtRunEnd(rest, synthetic, run);
  }

  lemma {:induction false} InsertNothing(messages: seq<ChatMessage>)
    ensures InsertBehindToolRun(messages, []) == messages
  {
    if messages != [] { InsertNothing(messages[1..]); }
  }

  lemma {:induction false} FixAt(messages: seq<ChatMessage>, index: nat)
    requires index < |messages|
    ensures var rest := Fix(messages[index + 1..]);
      Fix(messages[index..]) == [messages[index]] + InsertBehindToolRun(rest,
        if messages[index].role == Assistant then Missing(messages[index].toolCalls, Replies(rest) - {""}) else [])
  {
    assert messages[index..][1..] == messages[index + 1..];
    InsertNothing(Fix(messages[index + 1..]));
  }

  lemma {:induction false} Replaced(messages: seq<ChatMessage>, index: nat, tail: seq<ChatMessage>)
    requires index < |messages|
    ensures (messages[..index + 1] + tail)[..index] == messages[..index]
    ensures (messages[..index + 1] + tail)[index..] == [messages[index]] + tail
  {
  }

  method FixInterruptedToolCalls(original: seq<ChatMessage>) returns (messages: seq<ChatMessage>)
    ensures messages == Fix(original)
  {
    messages := original;
    var messageIndex := |messages|;
    while messageIndex > 0
      invariant 0 <= messageIndex <= |original|
      invariant messageIndex <= |messages| && messages[..messageIndex] == original[..messageIndex]
      invariant messages[messageIndex..] == Fix(original[messageIndex..])
    {
      messageIndex := messageIndex - 1;
      ghost var rest := Fix(original[messageIndex + 1..]);
      FixAt(original, messageIndex);
      assert messages[..messageIndex + 1][..messageIndex] == original[..messageIndex + 1][..messageIndex];
      var message := messages[messageIndex];
      assert message == original[messageIndex] && messages == messages[..messageIndex + 1] + rest;
      Replaced(messages, messageIndex, rest);
      InsertNothing(rest);
      if message.role == Assistant && |message.toolCalls| > 0 {
        var answered := CollectReplies(messages, messageIndex + 1);
        var synthetic := SynthesizeMissing(message.toolCalls, answered);
        if |synthetic| > 0 {
          Replaced(messages, messageIndex, InsertBehindToolRun(rest, synthetic));
          messages := InsertSynthetic(messages, messageIndex + 1, synthetic);
        }
      }
    }
  }

  method Announce(announced: set<string>, message: ChatMessage) returns (result: set<string>)
    ensures result == announced + CallIds(message)
  {
    result := announced;
    for index := 0 to |message.toolCalls|
      invariant result == announced + set call | call in message.toolCalls[..index] :: call.id
    {
      result := result + {message.toolCalls[index].id};
    }
    assert message.toolCalls[..|message.toolCalls|] == message.toolCalls;
  }

  lemma {:induction false} DropAt(messages: seq<ChatMessage>, index: nat, announced: set<string>)
    requires index < |messages|
    ensures var announced' := announced + CallIds(messages[index]);
      Drop(messages[index..], announced) ==
      (if Orphan(messages[index], announced') then [] else [messages[index]]) + Drop(messages[index + 1..], announced')
  {
    assert messages[index..][1..] == messages[index + 1..];
  }

  method DropUnpairedToolResults(messages: seq<ChatMessage>) returns (kept: seq<ChatMessage>)
    ensures kept == Drop(messages, {})
  {
    var announced: set<string> := {};
    kept := [];
    for index := 0 to |messages|
      invariant kept + Drop(messages[index..], announced) == Drop(messages, {})
    {
      var message := messages[index];
      DropAt(messages, index, announced);
      announced := Announce(announced, message);
      if message.role == Tool && message.toolCallId != "" && message.toolCallId !in announced {
        continue;
      }
      kept := kept + [message];
    }
  }
}
