/** Translating a prompt into the alternating contents of the Gemini API. */
module Gemini {
  import opened Messages
  import opened PromptRepair
  import opened RepairNormalForm
  import opened TurnMerging

  datatype Part =
    | TextPiece(text: string)
    | MediaPiece(url: string)
    | FunctionCall(name: string, arguments: string)
    | FunctionResponse(name: string, response: string)

  function UserParts(parts: seq<ContentPart>): seq<Part> {
    if parts == [] then []
    else (match parts[0]
          case TextPart(text) => [TextPiece(text)]
          case ImagePart(url) => [MediaPiece(url)]
          case UnusablePart => []) + UserParts(parts[1..])
  }

  function CallParts(calls: seq<ToolCall>): seq<Part> {
    if calls == [] then []
    else [FunctionCall(calls[0].name,
                       match calls[0].arguments
                       case Absent => "{}"
                       case Json(text) => text
                       case Malformed(text) => text)] + CallParts(calls[1..])
  }

  function NonEmpty(parts: seq<Part>): seq<Part> {
    if parts == [] then [TextPiece("")] else parts
  }

  /** Only these roles become contents; system text goes to the system instruction. */
  predicate Speaks(message: ChatMessage) {
    message.role == User || message.role == Assistant || message.role == Tool
  }

  function MessageParts(message: ChatMessage): seq<Part>
    requires Speaks(message)
  {
    match message.role
    case Assistant =>
      NonEmpty((if ContentText(message.content) == "" then [] else [TextPiece(ContentText(message.content))]) +
               CallParts(message.toolCalls))
    case Tool => [FunctionResponse(message.name, ContentText(message.content))]
    case _ =>
      if message.content.Parts? then NonEmpty(UserParts(message.content.parts))
      else [TextPiece(message.content.text)]
  }

  function Translate(message: ChatMessage): Turn<Part>
    requires Speaks(message)
  {
    Turn(message.role != Assistant, Some(MessageParts(message)))
  }

  function Spoken(messages: seq<ChatMessage>): (spoken: seq<ChatMessage>)
    ensures forall i :: 0 <= i < |spoken| ==> Speaks(spoken[i])
  {
    if messages == [] then []
    else (if Speaks(messages[0]) then [messages[0]] else []) + Spoken(messages[1..])
  }

  function TranslateAll(messages: seq<ChatMessage>): (translated: seq<Turn<Part>>)
    requires forall i :: 0 <= i < |messages| ==> Speaks(messages[i])
    ensures |translated| == |messages|
    ensures forall i :: 0 <= i < |messages| ==> translated[i] == Translate(messages[i])
  {
    if messages == [] then [] else [Translate(messages[0])] + TranslateAll(messages[1..])
  }

  function SystemTexts(messages: seq<ChatMessage>): seq<string> {
    if messages == [] then []
    else (if messages[0].role == System then [ContentText(messages[0].content)] else []) + SystemTexts(messages[1..])
  }

  function Contents(messages: seq<ChatMessage>): seq<Turn<Part>> {
    Turns(TranslateAll(Spoken(messages)))
  }

  lemma {:induction false} SnocSpoken(messages: seq<ChatMessage>, next: ChatMessage)
    ensures Spoken(messages + [next]) == Spoken(messages) + (if Speaks(next) then [next] else [])
    ensures SystemTexts(messages + [next])
         == SystemTexts(messages) + (if next.role == System then [ContentText(next.content)] else [])
  {
    if messages != [] {
      assert (messages + [next])[1..] == messages[1..] + [next];
      SnocSpoken(messages[1..], next);
    } else {
      assert messages + [next] == [next];
    }
  }

  lemma {:induction false} SnocSystem(messages: seq<ChatMessage>, next: ChatMessage)
    ensures SystemTexts(messages + [next]) ==
      if next.role == System then SystemTexts(messages) + [ContentText(next.content)] else SystemTexts(messages)
  {
    SnocSpoken(messages, next);
  }

  lemma {:induction false} SnocTranslated(spoken: seq<ChatMessage>, next: ChatMessage)
    requires Speaks(next) && forall i :: 0 <= i < |spoken| ==> Speaks(spoken[i])
    ensures TranslateAll(spoken + [next]) == TranslateAll(spoken) + [Translate(next)]
  {
    if spoken != [] {
      assert (spoken + [next])[1..] == spoken[1..] + [next];
      SnocTranslated(spoken[1..], next);
    } else {
      assert spoken + [next] == [next];
    }
  }

  lemma {:induction false} SnocContents(messages: seq<ChatMessage>, next: ChatMessage)
    ensures Contents(messages + [next]) ==
      if Speaks(next) then Push(Contents(messages), Translate(next)) else Contents(messages)
  {
    SnocSpoken(messages, next);
    var spoken := Spoken(messages);
    if Speaks(next) {
      assert Spoken(messages + [next]) == spoken + [next];
      SnocTranslated(spoken, next);
      TurnsSnoc(TranslateAll(spoken), Translate(next));
    } else {
      assert Spoken(messages + [next]) == spoken;
    }
  }

  method TranslateMessages(messages: seq<ChatMessage>) returns (systemParts: seq<string>, contents: seq<Turn<Part>>)
    ensures systemParts == SystemTexts(messages)
    ensures contents == Contents(messages)
  {
    systemParts, contents := [], [];
    for index := 0 to |messages|
      invariant systemParts == SystemTexts(messages[..index])
      invariant contents == Contents(messages[..index])
    {
      var message := messages[index];
      assert messages[..index + 1] == messages[..index] + [message];
      SnocSystem(messages[..index], message);
      SnocContents(messages[..index], message);
      match message.role {
        case System => systemParts := systemParts + [ContentText(message.content)];
        case Other =>
        case _ =>
          var translated := Translate(message);
          assert Contents(messages[..index + 1]) == Push(contents, translated);
          if |contents| > 0 && contents[|contents| - 1].user == translated.user {
            var last := contents[|contents| - 1];
            contents := contents[..|contents| - 1] + [Merge(last, translated)];
          } else {
            contents := contents + [translated];
          }
      }
    }
    assert messages[..|messages|] == messages;
  }

  function AllParts(messages: seq<ChatMessage>): seq<Part>
    requires forall i :: 0 <= i < |messages| ==> Speaks(messages[i])
  {
    if messages == [] then []
    else AllParts(messages[..|messages| - 1]) + MessageParts(messages[|messages| - 1])
  }

  lemma {:induction false} TranslatedParts(messages: seq<ChatMessage>)
    requires forall i :: 0 <= i < |messages| ==> Speaks(messages[i])
    ensures Blocks(TranslateAll(messages)) == AllParts(messages)
  {
    if messages != [] {
      var before := messages[..|messages| - 1];
      TranslatedParts(before);
      assert TranslateAll(messages)[..|before|] == TranslateAll(before);
    }
  }

  /** Contents alternate between user and model, and keep every part in order. */
  lemma {:induction false} ContentsAlternateAndKeepParts(messages: seq<ChatMessage>)
    ensures Alternating(Contents(messages))
    ensures Blocks(Contents(messages)) == AllParts(Spoken(messages))
  {
    TurnsAlternate(TranslateAll(Spoken(messages)));
    MergingKeepsBlocks(TranslateAll(Spoken(messages)));
    TranslatedParts(Spoken(messages));
  }

  lemma {:induction false} SpokenKeepsReplies(messages: seq<ChatMessage>)
    ensures Replies(Spoken(messages)) == Replies(messages)
    ensures Answered(messages) ==> Answered(Spoken(messages))
  {
    if messages != [] {
      SpokenKeepsReplies(messages[1..]);
      if Speaks(messages[0]) {
        assert Spoken(messages)[1..] == Spoken(messages[1..]);
      } else {
        assert Spoken(messages) == Spoken(messages[1..]);
      }
    }
  }

  /** The response to call `id` of spoken message `i` is part of the very next content, a user one. */
  ghost predicate RespondedInNextTurn(messages: seq<ChatMessage>, i: nat, id: string)
    requires i < |Spoken(messages)|
  {
    var spoken, contents := Spoken(messages), Contents(messages);
    var t := TurnOf(TranslateAll(spoken), i);
    t + 1 < |contents| && contents[t + 1].user && contents[t + 1].content.Some? &&
    exists j :: i < j < |spoken| && IsReply(spoken, i, j, id) &&
      FunctionResponse(spoken[j].name, ContentText(spoken[j].content)) in contents[t + 1].content.value
  }

  lemma {:induction false} CallIsRespondedInNextTurn(messages: seq<ChatMessage>, i: nat, id: string)
    requires Answered(messages) && i < |Spoken(messages)|
    requires Spoken(messages)[i].role == Assistant && id in CallIds(Spoken(messages)[i])
    ensures RespondedInNextTurn(messages, i, id)
  {
    var spoken := Spoken(messages);
    SpokenKeepsReplies(messages);
    AnsweredMeansInTurn(spoken);
    var j :| i < j < |spoken| && IsReply(spoken, i, j, id);
    OneTurnApart(spoken, i, j);
    ResponseArrives(spoken, j);
  }

  lemma {:induction false} ResponseArrives(spoken: seq<ChatMessage>, j: nat)
    requires forall k :: 0 <= k < |spoken| ==> Speaks(spoken[k])
    requires j < |spoken| && spoken[j].role == Tool
    ensures var turns, t := Turns(TranslateAll(spoken)), TurnOf(TranslateAll(spoken), j);
      t < |turns| && turns[t].user && turns[t].content.Some? &&
      FunctionResponse(spoken[j].name, ContentText(spoken[j].content)) in turns[t].content.value
  {
    BlocksArrive(TranslateAll(spoken), j, FunctionResponse(spoken[j].name, ContentText(spoken[j].content)));
  }

  lemma {:induction false} OneTurnApart(spoken: seq<ChatMessage>, i: nat, j: nat)
    requires forall k :: 0 <= k < |spoken| ==> Speaks(spoken[k])
    requires i < j < |spoken| && spoken[i].role == Assistant
    requires forall k :: i < k <= j ==> spoken[k].role != Assistant
    ensures TurnOf(TranslateAll(spoken), j) == TurnOf(TranslateAll(spoken), i) + 1
  {
    NextTurn(TranslateAll(spoken), i, j);
  }
}
