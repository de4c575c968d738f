/** The prompt messages that the runner hands to a provider, and their parts. */
module Messages {

  datatype Option<+T> = None | Some(value: T)

  /** `Other` stands for every role string the code gives no meaning to, the empty one included. */
  datatype Role = System | User | Assistant | Tool | Other

  /** The argument string of a tool call: absent, well-formed JSON, or text no JSON encoder accepts. */
  datatype Arguments = Absent | Json(text: string) | Malformed(text: string)

  datatype ToolCall = ToolCall(id: string, name: string, arguments: Arguments)

  /** `UnusablePart` is a part of any other type, or an image part without its URL. */
  datatype ContentPart = TextPart(text: string) | ImagePart(url: string) | UnusablePart

  datatype Content = Text(text: string) | Parts(parts: seq<ContentPart>)

  datatype ChatMessage = ChatMessage(
    role: Role,
    content: Content,
    toolCalls: seq<ToolCall>,
    toolCallId: string,
    name: string,
    sourceMessageId: string)

  function JoinTexts(parts: seq<ContentPart>): string {
    if parts == [] then ""
    else (if parts[0].TextPart? then parts[0].text else "") + JoinTexts(parts[1..])
  }

  function ContentText(content: Content): string {
    match content
    case Text(text) => text
    case Parts(parts) => JoinTexts(parts)
  }

  function SystemMessage(text: string): ChatMessage {
    ChatMessage(System, Text(text), [], "", "", "")
  }

  /** The ids of the tool calls a message announces. */
  function CallIds(message: ChatMessage): set<string> {
    set call | call in message.toolCalls :: call.id
  }

  /** The shape prompt assembly gives every message: only assistants carry tool calls. */
  ghost predicate OnlyAssistantsCall(messages: seq<ChatMessage>) {
    forall i :: 0 <= i < |messages| && messages[i].role != Assistant ==> messages[i].toolCalls == []
  }

  /** Two prompts that differ in nothing but the content of tool results. */
  ghost predicate SameButToolContent(before: seq<ChatMessage>, after: seq<ChatMessage>) {
    |before| == |after| &&
    forall i :: 0 <= i < |before| ==>
      (after[i] == before[i] || (before[i].role == Tool && after[i] == before[i].(content := after[i].content)))
  }

  /** The estimated tokens of all messages. */
  function Sum(tokens: ChatMessage -> nat, messages: seq<ChatMessage>): nat {
    if messages == [] then 0 else tokens(messages[0]) + Sum(tokens, messages[1..])
  }

  lemma {:induction false} SumOfConcat(tokens: ChatMessage -> nat, left: seq<ChatMessage>, right: seq<ChatMessage>)
    ensures Sum(tokens, left + right) == Sum(tokens, left) + Sum(tokens, right)
  {
    if left == [] {
      assert left + right == right;
    } else {
      assert (left + right)[1..] == left[1..] + right;
      SumOfConcat(tokens, left[1..], right);
    }
  }

  lemma {:induction false} SumOfOne(tokens: ChatMessage -> nat, message: ChatMessage)
    ensures Sum(tokens, [message]) == tokens(message) && Sum(tokens, []) == 0
  {
    assert [message][1..] == [];
  }
}
