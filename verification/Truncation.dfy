/** Shortening tool results before a request; nothing but their text changes. */
module Truncation {
  import opened Messages

  const HARD_CLEAR_MULTIPLIER := 4
  const HARD_CLEARED_PLACEHOLDER := "[Old tool result content cleared due to context limits]"
  const ELLIPSIS := "\n...\n"
  const TRUNCATED_MARK := "\n... (truncated)"

  function HeadCharacters(maxCharacters: int): (head: nat)
    requires maxCharacters > 0
    ensures head < maxCharacters
  {
    if maxCharacters * 3 / 4 <= 0 then maxCharacters / 2 else maxCharacters * 3 / 4
  }

  /** A text over the budget keeps as many characters as the budget allows, three quarters of them at its
      head and the others at its tail, and says so. */
  function TrimToolResultText(text: string, maxCharacters: int): (trimmed: string)
    ensures maxCharacters <= 0 || |text| <= maxCharacters ==> trimmed == text
    ensures 0 < maxCharacters < |text| ==>
      var head := HeadCharacters(maxCharacters);
      var end := maxCharacters + |ELLIPSIS|;
      |trimmed| == end + |TRUNCATED_MARK| && trimmed[..head] == text[..head] &&
      trimmed[head + |ELLIPSIS|..end] == text[|text| - (maxCharacters - head)..]
  {
    if maxCharacters <= 0 || |text| <= maxCharacters then text
    else
      var head := HeadCharacters(maxCharacters);
      text[..head] + ELLIPSIS + text[|text| - (maxCharacters - head)..] + TRUNCATED_MARK
  }

  function Truncate(message: ChatMessage, maxCharacters: int): ChatMessage {
    if message.role != Tool || message.content.Parts? || maxCharacters <= 0 then message
    else if |message.content.text| > maxCharacters * HARD_CLEAR_MULTIPLIER
    then message.(content := Text(HARD_CLEARED_PLACEHOLDER))
    else message.(content := Text(TrimToolResultText(message.content.text, maxCharacters)))
  }

  /** What a budget makes of the text of a tool result: a text within it is kept, one of more than four times as
      many characters is cleared, and any other keeps three quarters of the budget of its head and the rest of
      its tail. Nothing else of the message changes, and no other message does. */
  ghost predicate Shortens(before: ChatMessage, after: ChatMessage, budget: int) {
    after == before.(content := after.content) &&
    (before.role != Tool || before.content.Parts? || budget <= 0 || |before.content.text| <= budget ==>
      after == before) &&
    (before.role == Tool && before.content.Text? && budget > 0 ==>
      var text := before.content.text;
      (|text| > 4 * budget ==> after.content == Text("[Old tool result content cleared due to context limits]")) &&
      (budget < |text| <= 4 * budget ==>
        after.content == Text(text[..budget * 3 / 4] + "\n...\n" + text[|text| - (budget - budget * 3 / 4)..] +
          "\n... (truncated)")))
  }

  lemma {:induction false} TruncatingShortens(message: ChatMessage, budget: int)
    ensures Shortens(message, Truncate(message, budget), budget)
  {
    if budget > 0 { assert HeadCharacters(budget) == budget * 3 / 4; }
  }

  /** Tool results older than the last `minKeep` messages are truncated. */
  method TruncateOldToolResults(
    messages: seq<ChatMessage>, minKeep: nat, maxCharacters: int) returns (result: seq<ChatMessage>)
    ensures |result| == |messages|
    ensures forall i :: 0 <= i < |messages| ==>
      if i + minKeep < |messages| then Shortens(messages[i], result[i], maxCharacters) else result[i] == messages[i]
    ensures SameButToolContent(messages, result)
  {
    if |messages| <= minKeep {
      return messages;
    }
    result := TruncateBefore(messages, |messages| - minKeep, maxCharacters);
  }

  method TruncateAllToolResults(messages: seq<ChatMessage>, maxCharacters: int) returns (result: seq<ChatMessage>)
    ensures |result| == |messages|
    ensures forall i :: 0 <= i < |messages| ==> Shortens(messages[i], result[i], maxCharacters)
    ensures SameButToolContent(messages, result)
  {
    result := TruncateBefore(messages, |messages|, maxCharacters);
  }

  method TruncateBefore(
    messages: seq<ChatMessage>, boundary: nat, maxCharacters: int) returns (result: seq<ChatMessage>)
    requires boundary <= |messages|
    ensures |result| == |messages|
    ensures forall i :: 0 <= i < |messages| ==>
      if i < boundary then Shortens(messages[i], result[i], maxCharacters) else result[i] == messages[i]
    ensures SameButToolContent(messages, result)
  {
    result := messages;
    for index := 0 to boundary
      invariant |result| == |messages|
      invariant forall i :: 0 <= i < |messages| ==>
        result[i] == if i < index then Truncate(messages[i], maxCharacters) else messages[i]
    {
      var message := result[index];
      if message.role != Tool || !message.content.Text? {
        continue;
      }
      var text := message.content.text;
      if maxCharacters > 0 && |text| > maxCharacters * HARD_CLEAR_MULTIPLIER {
        result := result[index := message.(content := Text(HARD_CLEARED_PLACEHOLDER))];
        continue;
      }
      if maxCharacters > 0 && |text| > maxCharacters {
        result := result[index := message.(content := Text(TrimToolResultText(text, maxCharacters)))];
      }
    }
    forall i | 0 <= i < boundary ensures Shortens(messages[i], result[i], maxCharacters) {
      TruncatingShortens(messages[i], maxCharacters);
    }
  }
}
