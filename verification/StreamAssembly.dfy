/** Assembling a streamed Anthropic response, against translating the whole response at once. */
module StreamAssembly {
  import opened Messages

  datatype Usage = Usage(prompt: nat, completion: nat, total: nat, cacheCreated: nat, cacheRead: nat)

  const NO_USAGE := Usage(0, 0, 0, 0, 0)

  function AddUsage(a: Usage, b: Usage): Usage {
    Usage(a.prompt + b.prompt, a.completion + b.completion, a.total + b.total,
          a.cacheCreated + b.cacheCreated, a.cacheRead + b.cacheRead)
  }

  // ---------------------------------------------------------------------------------------
  // The response as a whole.
  // ---------------------------------------------------------------------------------------

  /** `input` is the encoded argument object. */
  datatype ResponseBlock =
    | TextContent(text: string)
    | ToolUseContent(id: string, name: string, input: string)
    | OtherContent

  datatype ResponseUsage = ResponseUsage(input: nat, output: nat, cacheCreated: nat, cacheRead: nat)

  datatype Response = Response(blocks: seq<ResponseBlock>, stopReason: string, usage: ResponseUsage)

  datatype Call = Call(id: string, name: string, arguments: string)

  datatype Assembled = Assembled(text: string, calls: seq<Call>, stopReason: string, usage: Usage)

  function TranslateStopReason(stopReason: string): string {
    if stopReason == "end_turn" then "stop"
    else if stopReason == "tool_use" then "tool_calls"
    else if stopReason == "max_tokens" then "length"
    else stopReason
  }

  /** The stop reason in the runtime's words. */
  ghost predicate Means(stopReason: string, translated: string) {
    (stopReason == "end_turn" ==> translated == "stop") && (stopReason == "tool_use" ==> translated == "tool_calls") &&
    (stopReason == "max_tokens" ==> translated == "length") &&
    (stopReason !in {"end_turn", "tool_use", "max_tokens"} ==> translated == stopReason)
  }

  function TextOf(blocks: seq<ResponseBlock>): string {
    if blocks == [] then ""
    else TextOf(blocks[..|blocks| - 1]) +
         (match blocks[|blocks| - 1] case TextContent(text) => text case _ => "")
  }

  function CallsOf(blocks: seq<ResponseBlock>): seq<Call> {
    if blocks == [] then []
    else CallsOf(blocks[..|blocks| - 1]) +
         (match blocks[|blocks| - 1] case ToolUseContent(id, name, input) => [Call(id, name, input)] case _ => [])
  }

  method TranslateResponse(response: Response) returns (result: Assembled)
    ensures result.text == TextOf(response.blocks) && result.calls == CallsOf(response.blocks)
    ensures result.stopReason == TranslateStopReason(response.stopReason)
    ensures Means(response.stopReason, result.stopReason)
    ensures result.usage == Usage(response.usage.input, response.usage.output,
      response.usage.input + response.usage.output, response.usage.cacheCreated, response.usage.cacheRead)
  {
    var text: string := "";
    var calls: seq<Call> := [];
    for index := 0 to |response.blocks|
      invariant text == TextOf(response.blocks[..index]) && calls == CallsOf(response.blocks[..index])
    {
      assert response.blocks[..index + 1][..index] == response.blocks[..index];
      match response.blocks[index] {
        case TextContent(part) => text := text + part;
        case ToolUseContent(id, name, input) => calls := calls + [Call(id, name, input)];
        case OtherContent =>
      }
    }
    assert response.blocks[..|response.blocks|] == response.blocks;
    var usage := response.usage;
    result := Assembled(text, calls, TranslateStopReason(response.stopReason),
      Usage(usage.input, usage.output, usage.input + usage.output, usage.cacheCreated, usage.cacheRead));
  }

  // ---------------------------------------------------------------------------------------
  // The event stream.
  // ---------------------------------------------------------------------------------------

  datatype BlockKind = TextKind | ToolUseKind | OtherKind

  datatype BlockInformation = BlockInformation(kind: BlockKind, id: string, name: string)

  /** A data payload; `Unreadable` stands for text that does not parse as its event. */
  datatype Payload =
    | MessageStart(usage: ResponseUsage)
    | BlockStart(index: nat, block: BlockInformation)
    | BlockDelta(index: nat, text: string, partialJson: string)
    | MessageDelta(stopReason: string, outputTokens: nat)
    | Unreadable

  /** `OtherEvent` covers the names the reader skips, and a data line no event line announced. */
  datatype EventName = StartEvent | BlockStartEvent | BlockDeltaEvent | DeltaEvent | StopEvent | OtherEvent

  datatype Line = EventLine(name: EventName) | DataLine(payload: Payload) | OtherLine

  datatype CallDelta = CallDelta(index: nat, id: string, name: string, arguments: string)

  datatype StreamEvent =
    | Chunk(content: string, calls: seq<CallDelta>, finishReason: string, usage: Option<Usage>)
    | Done
    | Failed

  datatype Sse = Sse(name: EventName, payload: Payload)

  predicate Readable(e: Sse) {
    match e.name
    case StartEvent => e.payload.MessageStart?
    case BlockStartEvent => e.payload.BlockStart?
    case BlockDeltaEvent => e.payload.BlockDelta?
    case DeltaEvent => e.payload.MessageDelta?
    case StopEvent => true
    case OtherEvent => true
  }

  predicate Stops(e: Sse) {
    !Readable(e) || e.name == StopEvent
  }

  /** What one server-sent event makes the reader emit. */
  function Emitted(e: Sse, blocks: map<nat, BlockInformation>): seq<StreamEvent> {
    if !Readable(e) then [Failed]
    else match e.name
      case StartEvent =>
        var usage := e.payload.usage;
        if usage.input > 0 || usage.cacheCreated > 0 || usage.cacheRead > 0
        then [Chunk("", [], "", Some(Usage(usage.input, 0, 0, usage.cacheCreated, usage.cacheRead)))]
        else []
      case BlockStartEvent =>
        var block := e.payload.block;
        if block.kind == ToolUseKind
        then [Chunk("", [CallDelta(e.payload.index, block.id, block.name, "")], "", None)]
        else []
      case BlockDeltaEvent =>
        if e.payload.index !in blocks then []
        else (match blocks[e.payload.index].kind
              case TextKind => [Chunk(e.payload.text, [], "", None)]
              case ToolUseKind => [Chunk("", [CallDelta(e.payload.index, "", "", e.payload.partialJson)], "", None)]
              case OtherKind => [])
      case DeltaEvent =>
        [Chunk("", [], TranslateStopReason(e.payload.stopReason), Some(Usage(0, e.payload.outputTokens, 0, 0, 0)))]
      case StopEvent => [Done]
      case OtherEvent => []
  }

  function NoteBlock(e: Sse, blocks: map<nat, BlockInformation>): map<nat, BlockInformation> {
    if e.name == BlockStartEvent && e.payload.BlockStart? then blocks[e.payload.index := e.payload.block] else blocks
  }

  function Read(events: seq<Sse>, blocks: map<nat, BlockInformation>): seq<StreamEvent> {
    if events == [] then []
    else Emitted(events[0], blocks) +
         (if Stops(events[0]) then [] else Read(events[1..], NoteBlock(events[0], blocks)))
  }

  /** The events the lines spell: each data line belongs to the last event line since the previous one. */
  function Decode(lines: seq<Line>, pending: EventName): seq<Sse> {
    if lines == [] then []
    else match lines[0]
      case EventLine(name) => Decode(lines[1..], name)
      case DataLine(payload) => [Sse(pending, payload)] + Decode(lines[1..], OtherEvent)
      case OtherLine => Decode(lines[1..], pending)
  }

  /** The name announced for the line at `i`: that of the last event line since the last data line, if any. */
  ghost function NameAt(lines: seq<Line>, i: nat): EventName
    requires i <= |lines|
  {
    if i == 0 || lines[i - 1].DataLine? then OtherEvent
    else if lines[i - 1].EventLine? then lines[i - 1].name
    else NameAt(lines, i - 1)
  }

  /** An event for each data line before `end`, under the name announced for it. */
  ghost function Announced(lines: seq<Line>, end: nat): seq<Sse>
    requires end <= |lines|
  {
    if end == 0 then []
    else if !lines[end - 1].DataLine? then Announced(lines, end - 1)
    else Announced(lines, end - 1) + [Sse(NameAt(lines, end - 1), lines[end - 1].payload)]
  }

  lemma {:induction false} DecodeFrom(lines: seq<Line>, start: nat)
    requires start <= |lines|
    ensures Announced(lines, start) + Decode(lines[start..], NameAt(lines, start)) == Announced(lines, |lines|)
    decreases |lines| - start
  {
    if start < |lines| {
      assert lines[start..][1..] == lines[start + 1..];
      DecodeFrom(lines, start + 1);
      if lines[start].DataLine? {
        var e := Sse(NameAt(lines, start), lines[start].payload);
        assert Announced(lines, start) + ([e] + Decode(lines[start + 1..], OtherEvent)) ==
          Announced(lines, start) + [e] + Decode(lines[start + 1..], OtherEvent);
      } else {
        assert Announced(lines, start + 1) == Announced(lines, start);
      }
    } else {
      assert lines[start..] == [];
    }
  }

  /** Each data line is one event, under the name announced for it. */
  lemma {:induction false} DecodeIsAnnounced(lines: seq<Line>)
    ensures Decode(lines, OtherEvent) == Announced(lines, |lines|)
  {
    DecodeFrom(lines, 0);
    assert lines[0..] == lines && Announced(lines, 0) == [];
    assert [] + Decode(lines, OtherEvent) == Decode(lines, OtherEvent);
  }

  method ReadSse(lines: seq<Line>) returns (events: seq<StreamEvent>)
    ensures events == Read(Decode(lines, OtherEvent), map[])
  {
    events := [];
    var blocks: map<nat, BlockInformation> := map[];
    var pendingEvent := OtherEvent;
    ghost var all := Read(Decode(lines, OtherEvent), map[]);
    for index := 0 to |lines|
      invariant events + Read(Decode(lines[index..], pendingEvent), blocks) == all
    {
      assert lines[index..][1..] == lines[index + 1..];
      match lines[index] {
        case EventLine(name) => pendingEvent := name;
        case OtherLine =>
        case DataLine(payload) =>
          var e := Sse(pendingEvent, payload);
          ghost var rest := Decode(lines[index + 1..], OtherEvent);
          assert Decode(lines[index..], pendingEvent) == [e] + rest;
          ReadOne(e, rest, blocks);
          var emitted := Emitted(e, blocks);
          events := events + emitted;
          if Stops(e) {
            return;
          }
          blocks := NoteBlock(e, blocks);
          pendingEvent := OtherEvent;
      }
    }
  }

  lemma {:induction false} ReadOne(e: Sse, rest: seq<Sse>, blocks: map<nat, BlockInformation>)
    ensures Read([e] + rest, blocks) == Emitted(e, blocks) + (if Stops(e) then [] else Read(rest, NoteBlock(e, blocks)))
  {
    assert ([e] + rest)[1..] == rest;
  }

  // ---------------------------------------------------------------------------------------
  // The runner's side.
  // ---------------------------------------------------------------------------------------

  datatype Collected = Collected(text: string, calls: map<nat, Call>, stopReason: string, usage: Usage)

  function ApplyCall(calls: map<nat, Call>, delta: CallDelta): map<nat, Call> {
    var call := if delta.index in calls then calls[delta.index] else Call("", "", "");
    calls[delta.index := Call(if delta.id == "" then call.id else delta.id,
                              call.name + delta.name, call.arguments + delta.arguments)]
  }

  function ApplyCalls(calls: map<nat, Call>, deltas: seq<CallDelta>): map<nat, Call>
    decreases |deltas|
  {
    if deltas == [] then calls else ApplyCalls(ApplyCall(calls, deltas[0]), deltas[1..])
  }

  function ApplyChunk(c: Collected, e: StreamEvent): Collected
    requires e.Chunk?
  {
    Collected(c.text + e.content, ApplyCalls(c.calls, e.calls),
              if e.finishReason == "" then c.stopReason else e.finishReason,
              if e.usage.Some? then AddUsage(c.usage, e.usage.value) else c.usage)
  }

  /** Nothing is collected behind an error or the end marker. */
  function Collect(c: Collected, events: seq<StreamEvent>): Collected
    decreases |events|
  {
    if events == [] || !events[0].Chunk? then c else Collect(ApplyChunk(c, events[0]), events[1..])
  }

  /** The calls in ascending order of their block index. */
  function Ordered(calls: map<nat, Call>, limit: nat): seq<Call> {
    if limit == 0 then []
    else Ordered(calls, limit - 1) + (if limit - 1 in calls then [calls[limit - 1]] else [])
  }

  method CollectStream(initial: Collected, events: seq<StreamEvent>) returns (c: Collected)
    ensures c == Collect(initial, events)
  {
    c := initial;
    for index := 0 to |events|
      invariant Collect(c, events[index..]) == Collect(initial, events)
    {
      assert events[index..][1..] == events[index + 1..];
      var e := events[index];
      if !e.Chunk? {
        return;
      }
      var usage := if e.usage.Some? then AddUsage(c.usage, e.usage.value) else c.usage;
      var calls: map<nat, Call> := c.calls;
      for position := 0 to |e.calls|
        invariant ApplyCalls(calls, e.calls[position..]) == ApplyCalls(c.calls, e.calls)
      {
        assert e.calls[position..][1..] == e.calls[position + 1..];
        var delta := e.calls[position];
        var call := if delta.index in calls then calls[delta.index] else Call("", "", "");
        if delta.id != "" {
          call := call.(id := delta.id);
        }
        call := call.(name := call.name + delta.name, arguments := call.arguments + delta.arguments);
        calls := calls[delta.index := call];
      }
      c := Collected(c.text + e.content, calls, if e.finishReason == "" then c.stopReason else e.finishReason, usage);
    }
  }

  /** `indices` is what sorting the keys of the map gives. */
  method Flatten(calls: map<nat, Call>, indices: seq<nat>, limit: nat) returns (toolCalls: seq<Call>)
    requires forall i, j :: 0 <= i < j < |indices| ==> indices[i] < indices[j]
    requires forall index: nat :: index in indices <==> index in calls
    requires forall index: nat :: index in calls ==> index < limit
    ensures toolCalls == Ordered(calls, limit)
  {
    toolCalls := [];
    var seen: nat := 0;
    for position := 0 to |indices|
      invariant toolCalls == Ordered(calls, seen)
      invariant seen == if position == 0 then 0 else indices[position - 1] + 1
    {
      var index := indices[position];
      assert index in indices;
      NoCallBetween(calls, indices, position, seen, index);
      toolCalls := toolCalls + [calls[index]];
      seen := index + 1;
    }
    assert forall index: nat :: seen <= index < limit ==> index !in indices;
    OrderedOverGap(calls, seen, if seen <= limit then limit else seen);
    assert seen <= limit by {
      if |indices| > 0 { assert indices[|indices| - 1] in indices; }
    }
  }

  lemma {:induction false} NoCallBetween(calls: map<nat, Call>, indices: seq<nat>, position: nat, low: nat, high: nat)
    requires forall i, j :: 0 <= i < j < |indices| ==> indices[i] < indices[j]
    requires forall index: nat :: index in indices <==> index in calls
    requires position < |indices| && high == indices[position]
    requires low == if position == 0 then 0 else indices[position - 1] + 1
    ensures low <= high && Ordered(calls, high) == Ordered(calls, low)
  {
    assert forall index: nat :: low <= index < high ==> index !in indices;
    OrderedOverGap(calls, low, high);
  }

  lemma {:induction false} OrderedOverGap(calls: map<nat, Call>, low: nat, high: nat)
    requires low <= high
    requires forall index: nat :: low <= index < high ==> index !in calls
    ensures Ordered(calls, high) == Ordered(calls, low)
    decreases high
  {
    if low < high { OrderedOverGap(calls, low, high - 1); }
  }

  /** Reading ends with the first event that is no event of its name, or that says so: nothing behind it is
      read, and what is collected is what came before. */
  lemma {:induction false} NothingIsReadBehindStop(
    before: seq<Sse>, e: Sse, rest: seq<Sse>, blocks: map<nat, BlockInformation>, c: Collected)
    requires forall i :: 0 <= i < |before| ==> !Stops(before[i])
    requires e.name == StopEvent || (e.name == StartEvent && !e.payload.MessageStart?) ||
      (e.name == BlockStartEvent && !e.payload.BlockStart?) || (e.name == BlockDeltaEvent && !e.payload.BlockDelta?) ||
      (e.name == DeltaEvent && !e.payload.MessageDelta?)
    ensures Read(before + [e] + rest, blocks) == Read(before, blocks) + [if e.name == StopEvent then Done else Failed]
    ensures Collect(c, Read(before + [e] + rest, blocks)) == Collect(c, Read(before, blocks))
  {
    var end := if e.name == StopEvent then Done else Failed;
    if before == [] {
      assert before + [e] + rest == [e] + rest;
      ReadOne(e, rest, blocks);
      assert Read([], blocks) + [end] == [end];
    } else {
      var first, others := before[0], before[1..];
      assert before + [e] + rest == [first] + (others + [e] + rest) && before == [first] + others;
      ReadOne(first, others + [e] + rest, blocks);
      ReadOne(first, others, blocks);
      NothingIsReadBehindStop(others, e, rest, NoteBlock(first, blocks), c);
    }
    CollectStopsAt(c, Read(before, blocks), end);
  }

  lemma {:induction false} CollectStopsAt(c: Collected, events: seq<StreamEvent>, end: StreamEvent)
    requires !end.Chunk?
    ensures Collect(c, events + [end]) == Collect(c, events)
    decreases |events|
  {
    if events == [] {
      assert events + [end] == [end];
    } else if events[0].Chunk? {
      assert (events + [end])[1..] == events[1..] + [end];
      CollectStopsAt(ApplyChunk(c, events[0]), events[1..], end);
    }
  }

  // ---------------------------------------------------------------------------------------
  // How a server streams a response.
  // ---------------------------------------------------------------------------------------

  function Join(pieces: seq<string>): string {
    if pieces == [] then "" else pieces[0] + Join(pieces[1..])
  }

  function Head(block: ResponseBlock): BlockInformation {
    match block
    case TextContent(_) => BlockInformation(TextKind, "", "")
    case ToolUseContent(id, name, _) => BlockInformation(ToolUseKind, id, name)
    case OtherContent => BlockInformation(OtherKind, "", "")
  }

  function Deltas(index: nat, block: ResponseBlock, pieces: seq<string>): seq<Sse> {
    if pieces == [] then []
    else [Sse(BlockDeltaEvent, if block.ToolUseContent? then BlockDelta(index, "", pieces[0])
                               else BlockDelta(index, pieces[0], ""))] + Deltas(index, block, pieces[1..])
  }

  /** `pieces[i]` are the fragments block `i` is sent in. */
  function BlockEvents(blocks: seq<ResponseBlock>, pieces: seq<seq<string>>, from: nat): seq<Sse>
    requires |pieces| == |blocks| && from <= |blocks|
    decreases |blocks| - from
  {
    if from == |blocks| then []
    else [Sse(BlockStartEvent, BlockStart(from, Head(blocks[from])))] + Deltas(from, blocks[from], pieces[from]) +
         BlockEvents(blocks, pieces, from + 1)
  }

  function Streamed(response: Response, pieces: seq<seq<string>>): seq<Sse>
    requires |pieces| == |response.blocks|
  {
    [Sse(StartEvent, MessageStart(response.usage))] + BlockEvents(response.blocks, pieces, 0) +
    [Sse(DeltaEvent, MessageDelta(response.stopReason, response.usage.output)), Sse(StopEvent, Unreadable)]
  }

  /** The events the reader acts on; pings, block ends and unknown events are noise. */
  function Significant(events: seq<Sse>): seq<Sse> {
    if events == [] then []
    else (if events[0].name == OtherEvent then [] else [events[0]]) + Significant(events[1..])
  }

  lemma {:induction false} NoiseIsIgnored(events: seq<Sse>, blocks: map<nat, BlockInformation>)
    ensures Read(Significant(events), blocks) == Read(events, blocks)
    decreases |events|
  {
    if events != [] {
      var rest := Significant(events[1..]);
      NoiseIsIgnored(events[1..], NoteBlock(events[0], blocks));
      if events[0].name != OtherEvent {
        ReadOne(events[0], rest, blocks);
      } else {
        assert Significant(events) == rest;
        assert Emitted(events[0], blocks) == [] && NoteBlock(events[0], blocks) == blocks && !Stops(events[0]);
        assert Read(events, blocks) == [] + Read(events[1..], blocks);
      }
    }
  }

  function SentBlock(block: ResponseBlock, fragments: seq<string>): ResponseBlock {
    match block
    case TextContent(_) => TextContent(Join(fragments))
    case ToolUseContent(id, name, _) => ToolUseContent(id, name, Join(fragments))
    case OtherContent => OtherContent
  }

  /** The blocks as they are streamed: every block says what its fragments add up to. */
  function Sent(blocks: seq<ResponseBlock>, pieces: seq<seq<string>>): seq<ResponseBlock>
    requires |pieces| == |blocks|
  {
    if blocks == [] then []
    else
      var last := |blocks| - 1;
      Sent(blocks[..last], pieces[..last]) + [SentBlock(blocks[last], pieces[last])]
  }

  /** What has been collected once block `index` has also said `text`. */
  function Said(c: Collected, index: nat, block: ResponseBlock, text: string): Collected
    requires block.ToolUseContent? ==> index in c.calls
  {
    match block
    case TextContent(_) => c.(text := c.text + text)
    case ToolUseContent(_, _, _) =>
      var call := c.calls[index];
      c.(calls := c.calls[index := Call(call.id, call.name, call.arguments + text)])
    case OtherContent => c
  }

  lemma {:induction false} SaidTwice(c: Collected, index: nat, block: ResponseBlock, first: string, second: string)
    requires block.ToolUseContent? ==> index in c.calls
    ensures Said(Said(c, index, block, first), index, block, second) == Said(c, index, block, first + second)
  {
    assert c.text + first + second == c.text + (first + second);
    if block.ToolUseContent? {
      var call := c.calls[index];
      assert call.arguments + first + second == call.arguments + (first + second);
    }
  }

  lemma {:induction false} SaidNothing(c: Collected, index: nat, block: ResponseBlock)
    requires block.ToolUseContent? ==> index in c.calls
    ensures Said(c, index, block, "") == c
  {
    assert c.text + "" == c.text;
    if block.ToolUseContent? {
      var call := c.calls[index];
      assert call.arguments + "" == call.arguments;
      assert c.calls[index := call] == c.calls;
    }
  }

  lemma {:induction false} DeltaIsSaid(
    c: Collected, index: nat, block: ResponseBlock, piece: string, blocks: map<nat, BlockInformation>,
    rest: seq<StreamEvent>)
    requires index in blocks && blocks[index] == Head(block)
    requires block.ToolUseContent? ==> index in c.calls
    ensures var e := Deltas(index, block, [piece])[0];
      Readable(e) && !Stops(e) && NoteBlock(e, blocks) == blocks &&
      Collect(c, Emitted(e, blocks) + rest) == Collect(Said(c, index, block, piece), rest)
  {
    var e := Deltas(index, block, [piece])[0];
    match block {
      case OtherContent => assert Emitted(e, blocks) + rest == rest;
      case TextContent(_) => assert (Emitted(e, blocks) + rest)[1..] == rest;
      case ToolUseContent(_, _, _) =>
        assert (Emitted(e, blocks) + rest)[1..] == rest;
        var delta := CallDelta(index, "", "", piece);
        assert Emitted(e, blocks)[0] == Chunk("", [delta], "", None);
        assert [delta][1..] == [];
        assert ApplyCalls(c.calls, [delta]) == ApplyCall(c.calls, delta);
        assert c.calls[index].name + "" == c.calls[index].name;
        assert c.text + "" == c.text;
    }
  }

  lemma {:induction false} DeltasAreSaid(
    c: Collected, index: nat, block: ResponseBlock, pieces: seq<string>, blocks: map<nat, BlockInformation>,
    rest: seq<Sse>)
    requires index in blocks && blocks[index] == Head(block)
    requires block.ToolUseContent? ==> index in c.calls
    ensures Collect(c, Read(Deltas(index, block, pieces) + rest, blocks)) ==
      Collect(Said(c, index, block, Join(pieces)), Read(rest, blocks))
    decreases |pieces|
  {
    if pieces == [] {
      assert Deltas(index, block, pieces) + rest == rest;
      SaidNothing(c, index, block);
    } else {
      var first := Deltas(index, block, [pieces[0]])[0];
      var others := Deltas(index, block, pieces[1..]) + rest;
      assert Deltas(index, block, pieces) + rest == [first] + others;
      ReadOne(first, others, blocks);
      DeltaIsSaid(c, index, block, pieces[0], blocks, Read(others, blocks));
      DeltasAreSaid(Said(c, index, block, pieces[0]), index, block, pieces[1..], blocks, rest);
      SaidTwice(c, index, block, pieces[0], Join(pieces[1..]));
    }
  }

  /** What has been collected once the first `from` blocks have been streamed. */
  ghost predicate Holds(
    c: Collected, initial: Collected, blocks: seq<ResponseBlock>, pieces: seq<seq<string>>, from: nat)
    requires |pieces| == |blocks| && from <= |blocks|
  {
    c.text == initial.text + TextOf(Sent(blocks[..from], pieces[..from])) &&
    Ordered(c.calls, from) == CallsOf(Sent(blocks[..from], pieces[..from])) &&
    (forall index :: index in c.calls ==> index < from) &&
    c.stopReason == initial.stopReason && c.usage == initial.usage
  }

  lemma {:induction false} OrderedIgnores(calls: map<nat, Call>, index: nat, call: Call, limit: nat)
    requires limit <= index
    ensures Ordered(calls[index := call], limit) == Ordered(calls, limit)
  {
    if limit > 0 { OrderedIgnores(calls, index, call, limit - 1); }
  }

  function Begun(c: Collected, index: nat, block: ResponseBlock): Collected {
    if block.ToolUseContent? then c.(calls := c.calls[index := Call(block.id, block.name, "")]) else c
  }

  /** One block: its start event, then its fragments. */
  lemma {:induction false} BlockIsCollected(
    c: Collected, index: nat, block: ResponseBlock, fragments: seq<string>, known: map<nat, BlockInformation>,
    rest: seq<Sse>)
    requires index !in c.calls
    ensures var start := Sse(BlockStartEvent, BlockStart(index, Head(block)));
      Collect(c, Read([start] + Deltas(index, block, fragments) + rest, known)) ==
      Collect(Said(Begun(c, index, block), index, block, Join(fragments)), Read(rest, known[index := Head(block)]))
  {
    var start := Sse(BlockStartEvent, BlockStart(index, Head(block)));
    var others := Deltas(index, block, fragments) + rest;
    var known' := known[index := Head(block)];
    assert [start] + Deltas(index, block, fragments) + rest == [start] + others;
    ReadOne(start, others, known);
    StartIsCollected(c, index, block, known, Read(others, known'));
    DeltasAreSaid(Begun(c, index, block), index, block, fragments, known', rest);
  }

  lemma {:induction false} StartIsCollected(
    c: Collected, index: nat, block: ResponseBlock, known: map<nat, BlockInformation>, rest: seq<StreamEvent>)
    requires index !in c.calls
    ensures var start := Sse(BlockStartEvent, BlockStart(index, Head(block)));
      Collect(c, Emitted(start, known) + rest) == Collect(Begun(c, index, block), rest)
  {
    var start := Sse(BlockStartEvent, BlockStart(index, Head(block)));
    if block.ToolUseContent? {
      var delta := CallDelta(index, block.id, block.name, "");
      var e := Chunk("", [delta], "", None);
      assert Emitted(start, known) == [e];
      assert [delta][1..] == [];
      assert ApplyCalls(c.calls, [delta]) == ApplyCall(c.calls, delta);
      assert "" + block.name == block.name && "" + "" == "" && c.text + "" == c.text;
    } else {
      assert Emitted(start, known) + rest == rest;
    }
  }

  lemma {:induction false} SentSnoc(blocks: seq<ResponseBlock>, pieces: seq<seq<string>>, from: nat)
    requires |pieces| == |blocks| && from < |blocks|
    ensures Sent(blocks[..from + 1], pieces[..from + 1]) ==
      Sent(blocks[..from], pieces[..from]) + [SentBlock(blocks[from], pieces[from])]
  {
    assert blocks[..from + 1][..from] == blocks[..from] && pieces[..from + 1][..from] == pieces[..from];
  }

  lemma {:induction false} BlockHolds(
    c: Collected, initial: Collected, blocks: seq<ResponseBlock>, pieces: seq<seq<string>>, from: nat)
    requires |pieces| == |blocks| && from < |blocks| && Holds(c, initial, blocks, pieces, from)
    ensures var next := Said(Begun(c, from, blocks[from]), from, blocks[from], Join(pieces[from]));
      Holds(next, initial, blocks, pieces, from + 1)
  {
    var block, said := blocks[from], Join(pieces[from]);
    SentSnoc(blocks, pieces, from);
    var before, sent := Sent(blocks[..from], pieces[..from]), SentBlock(block, pieces[from]);
    BlockIsNoted(c, from, block, said);
    var next := Said(Begun(c, from, block), from, block, said);
    TextGrows(initial.text, TextOf(before), if block.TextContent? then said else "");
    assert Ordered(next.calls, from + 1) == CallsOf(before + [sent]);
  }

  lemma {:induction false} TextGrows(initial: string, before: string, said: string)
    ensures initial + before + said == initial + (before + said) && initial + before + "" == initial + before
  {
  }

  lemma {:induction false} BlockIsNoted(c: Collected, index: nat, block: ResponseBlock, said: string)
    requires forall i :: i in c.calls ==> i < index
    ensures var next := Said(Begun(c, index, block), index, block, said);
      next.text == (if block.TextContent? then c.text + said else c.text) &&
      next.stopReason == c.stopReason && next.usage == c.usage &&
      (forall i :: i in next.calls ==> i < index + 1) &&
      Ordered(next.calls, index + 1) ==
        Ordered(c.calls, index) + (if block.ToolUseContent? then [Call(block.id, block.name, said)] else [])
  {
    if block.ToolUseContent? {
      var call := Call(block.id, block.name, said);
      assert "" + said == said;
      assert Said(Begun(c, index, block), index, block, said).calls == c.calls[index := call];
      OrderedIgnores(c.calls, index, call, index);
    }
  }

  lemma {:induction false} Regrouped(first: seq<Sse>, others: seq<Sse>, rest: seq<Sse>)
    ensures first + others + rest == first + (others + rest)
  {
  }

  lemma {:induction false} BlocksAreCollected(
    c: Collected, initial: Collected, blocks: seq<ResponseBlock>, pieces: seq<seq<string>>, from: nat,
    known: map<nat, BlockInformation>, rest: seq<Sse>) returns (final: Collected, known': map<nat, BlockInformation>)
    requires |pieces| == |blocks| && from <= |blocks| && Holds(c, initial, blocks, pieces, from)
    ensures Holds(final, initial, blocks, pieces, |blocks|)
    ensures Collect(c, Read(BlockEvents(blocks, pieces, from) + rest, known)) == Collect(final, Read(rest, known'))
    decreases |blocks| - from
  {
    if from == |blocks| {
      final, known' := c, known;
      assert BlockEvents(blocks, pieces, from) + rest == rest;
    } else {
      var start := Sse(BlockStartEvent, BlockStart(from, Head(blocks[from])));
      var others := BlockEvents(blocks, pieces, from + 1) + rest;
      Regrouped([start] + Deltas(from, blocks[from], pieces[from]), BlockEvents(blocks, pieces, from + 1), rest);
      BlockIsCollected(c, from, blocks[from], pieces[from], known, others);
      BlockHolds(c, initial, blocks, pieces, from);
      var next := Said(Begun(c, from, blocks[from]), from, blocks[from], Join(pieces[from]));
      var noted := known[from := Head(blocks[from])];
      final, known' := BlocksAreCollected(next, initial, blocks, pieces, from + 1, noted, rest);
    }
  }

  /** However the server cuts texts and arguments into fragments, and whatever noise lies between the
      events, the runner collects the response whose blocks say what their fragments add up to, and the tokens
      the stream reports; the total is never sent. */
  lemma {:induction false} StreamGivesWhatWasSent(
    lines: seq<Line>, response: Response, pieces: seq<seq<string>>, previousStop: string) returns (c: Collected)
    requires |pieces| == |response.blocks|
    requires Significant(Decode(lines, OtherEvent)) == Streamed(response, pieces)
    ensures c == Collect(Collected("", map[], previousStop, NO_USAGE), Read(Decode(lines, OtherEvent), map[]))
    ensures c.text == TextOf(Sent(response.blocks, pieces))
    ensures Ordered(c.calls, |response.blocks|) == CallsOf(Sent(response.blocks, pieces))
    ensures forall index :: index in c.calls ==> index < |response.blocks|
    ensures if response.stopReason == "" then c.stopReason == previousStop else Means(response.stopReason, c.stopReason)
    ensures var usage := response.usage;
      c.usage == Usage(usage.input, usage.output, 0, usage.cacheCreated, usage.cacheRead)
  {
    var blocks := response.blocks;
    var initial := Collected("", map[], previousStop, NO_USAGE);
    NoiseIsIgnored(Decode(lines, OtherEvent), map[]);
    var start := Sse(StartEvent, MessageStart(response.usage));
    var end := [Sse(DeltaEvent, MessageDelta(response.stopReason, response.usage.output)), Sse(StopEvent, Unreadable)];
    var others := BlockEvents(blocks, pieces, 0) + end;
    assert Streamed(response, pieces) == [start] + others;
    ReadOne(start, others, map[]);
    var begun := Opened(initial, response.usage, Read(others, map[]));
    assert Holds(begun, begun, blocks, pieces, 0) by {
      assert blocks[..0] == [] && pieces[..0] == [] && begun.text + "" == begun.text;
    }
    var final, known := BlocksAreCollected(begun, begun, blocks, pieces, 0, map[], end);
    assert blocks[..|blocks|] == blocks && pieces[..|blocks|] == pieces;
    c := Closed(final, response, known);
    assert "" + TextOf(Sent(blocks, pieces)) == TextOf(Sent(blocks, pieces));
  }

  lemma {:induction false} Opened(
    initial: Collected, usage: ResponseUsage, rest: seq<StreamEvent>) returns (c: Collected)
    requires initial.text == "" && initial.usage == NO_USAGE
    ensures Collect(initial, Emitted(Sse(StartEvent, MessageStart(usage)), map[]) + rest) == Collect(c, rest)
    ensures c == initial.(usage := Usage(usage.input, 0, 0, usage.cacheCreated, usage.cacheRead))
  {
    c := initial.(usage := Usage(usage.input, 0, 0, usage.cacheCreated, usage.cacheRead));
    var emitted := Emitted(Sse(StartEvent, MessageStart(usage)), map[]);
    if emitted == [] {
      assert emitted + rest == rest;
    } else {
      assert emitted == [emitted[0]] && initial.text + "" == initial.text;
    }
  }

  lemma {:induction false} Closed(
    c: Collected, response: Response, known: map<nat, BlockInformation>) returns (final: Collected)
    ensures var delta := MessageDelta(response.stopReason, response.usage.output);
      var end := [Sse(DeltaEvent, delta), Sse(StopEvent, Unreadable)];
      final == Collect(c, Read(end, known))
    ensures final.text == c.text && final.calls == c.calls
    ensures final.stopReason ==
      if response.stopReason == "" then c.stopReason else TranslateStopReason(response.stopReason)
    ensures final.usage == AddUsage(c.usage, Usage(0, response.usage.output, 0, 0, 0))
  {
    var delta := Sse(DeltaEvent, MessageDelta(response.stopReason, response.usage.output));
    var stop := Sse(StopEvent, Unreadable);
    assert [delta, stop] == [delta] + [stop];
    ReadOne(delta, [stop], known);
    ReadOne(stop, [], known);
    assert [stop] + [] == [stop] && Read([], known) == [];
    var events := Read([delta, stop], known);
    assert events[1..] == [Done];
    assert c.text + "" == c.text;
    final := Collect(c, events);
  }

  /** The fragments of the texts add up to the texts. */
  ghost predicate SaysTexts(blocks: seq<ResponseBlock>, pieces: seq<seq<string>>)
    requires |pieces| == |blocks|
  {
    forall i :: 0 <= i < |blocks| && blocks[i].TextContent? ==> Join(pieces[i]) == blocks[i].text
  }

  /** The fragments of the arguments add up to the encoded arguments. */
  ghost predicate SaysArguments(blocks: seq<ResponseBlock>, pieces: seq<seq<string>>)
    requires |pieces| == |blocks|
  {
    forall i :: 0 <= i < |blocks| && blocks[i].ToolUseContent? ==> Join(pieces[i]) == blocks[i].input
  }

  lemma {:induction false} SentTexts(blocks: seq<ResponseBlock>, pieces: seq<seq<string>>)
    requires |pieces| == |blocks| && SaysTexts(blocks, pieces)
    ensures TextOf(Sent(blocks, pieces)) == TextOf(blocks)
  {
    if blocks != [] {
      var last := |blocks| - 1;
      SentTexts(blocks[..last], pieces[..last]);
    }
  }

  lemma {:induction false} SentCalls(blocks: seq<ResponseBlock>, pieces: seq<seq<string>>)
    requires |pieces| == |blocks|
    ensures |CallsOf(Sent(blocks, pieces))| == |CallsOf(blocks)|
    ensures CallsOf(Sent(blocks, pieces)) == CallsOf(blocks) <==> SaysArguments(blocks, pieces)
  {
    if blocks != [] {
      var last := |blocks| - 1;
      var block, sent := blocks[last], SentBlock(blocks[last], pieces[last]);
      var others, before := blocks[..last], Sent(blocks[..last], pieces[..last]);
      SentCalls(others, pieces[..last]);
      assert others + [block] == blocks && before + [sent] == Sent(blocks, pieces);
      OfSnoc(others, block);
      OfSnoc(before, sent);
      SaysArgumentsSnoc(blocks, pieces);
      assert block.ToolUseContent? <==> sent.ToolUseContent?;
      if block.ToolUseContent? {
        assert sent.id == block.id && sent.name == block.name && sent.input == Join(pieces[last]);
        SnocEqual(CallsOf(before), Call(sent.id, sent.name, sent.input),
          CallsOf(others), Call(block.id, block.name, block.input));
      } else {
        assert CallsOf(before) + [] == CallsOf(before) && CallsOf(others) + [] == CallsOf(others);
      }
    }
  }

  lemma {:induction false} OfSnoc(blocks: seq<ResponseBlock>, block: ResponseBlock)
    ensures CallsOf(blocks + [block]) ==
      CallsOf(blocks) + (if block.ToolUseContent? then [Call(block.id, block.name, block.input)] else [])
  {
    assert (blocks + [block])[..|blocks|] == blocks;
  }

  lemma {:induction false} SaysArgumentsSnoc(blocks: seq<ResponseBlock>, pieces: seq<seq<string>>)
    requires |pieces| == |blocks| && blocks != []
    ensures var last := |blocks| - 1;
      SaysArguments(blocks, pieces) <==>
      (SaysArguments(blocks[..last], pieces[..last]) &&
       (blocks[last].ToolUseContent? ==> Join(pieces[last]) == blocks[last].input))
  {
    var last := |blocks| - 1;
    if SaysArguments(blocks[..last], pieces[..last]) {
      forall i | 0 <= i < last && blocks[i].ToolUseContent? ensures Join(pieces[i]) == blocks[i].input {
        assert blocks[..last][i] == blocks[i] && pieces[..last][i] == pieces[i];
      }
    }
  }

  lemma {:induction false} SnocEqual<T>(left: seq<T>, x: T, right: seq<T>, y: T)
    requires |left| == |right|
    ensures left + [x] == right + [y] <==> left == right && x == y
  {
    assert (left + [x])[..|left|] == left && (right + [y])[..|right|] == right;
    assert (left + [x])[|left|] == x && (right + [y])[|right|] == y;
  }

  /** The streamed and the whole response agree on text and the tokens that are sent; on the calls if
      and only if the argument fragments add up (a call sent without any fragment has no arguments,
      where the whole response says `{}`); on the stop reason if and only if there is one or none was
      left over from the round before; and on the total token count if and only if that is zero. */
  lemma {:induction false} StreamAgreesWithWhole(
    lines: seq<Line>, response: Response, pieces: seq<seq<string>>, previousStop: string) returns (c: Collected)
    requires |pieces| == |response.blocks|
    requires Significant(Decode(lines, OtherEvent)) == Streamed(response, pieces)
    requires SaysTexts(response.blocks, pieces)
    ensures c == Collect(Collected("", map[], previousStop, NO_USAGE), Read(Decode(lines, OtherEvent), map[]))
    ensures c.text == TextOf(response.blocks)
    ensures Ordered(c.calls, |response.blocks|) == CallsOf(response.blocks) <==> SaysArguments(response.blocks, pieces)
    ensures c.stopReason == TranslateStopReason(response.stopReason) <==>
            response.stopReason != "" || previousStop == ""
    ensures var usage := response.usage;
      c.usage == Usage(usage.input, usage.output, 0, usage.cacheCreated, usage.cacheRead)
    ensures c.usage.total == response.usage.input + response.usage.output <==>
            response.usage.input == 0 && response.usage.output == 0
  {
    c := StreamGivesWhatWasSent(lines, response, pieces, previousStop);
    SentTexts(response.blocks, pieces);
    SentCalls(response.blocks, pieces);
  }

  lemma {:induction false} DecodeLine(line: Line, rest: seq<Line>, pending: EventName)
    ensures Decode([line] + rest, pending) ==
      if line.EventLine? then Decode(rest, line.name)
      else if line.DataLine? then [Sse(pending, line.payload)] + Decode(rest, OtherEvent)
      else Decode(rest, pending)
  {
    assert ([line] + rest)[1..] == rest;
  }

  /** The plain framing of events as lines. */
  function Frame(events: seq<Sse>): seq<Line> {
    if events == [] then []
    else [EventLine(events[0].name)] + ([DataLine(events[0].payload)] + ([OtherLine] + Frame(events[1..])))
  }

  /** Framing and decoding are inverse. */
  lemma {:induction false} DecodeOfFrame(events: seq<Sse>)
    ensures Decode(Frame(events), OtherEvent) == events
  {
    if events != [] {
      var e, others := events[0], Frame(events[1..]);
      DecodeOfFrame(events[1..]);
      DecodeLine(OtherLine, others, OtherEvent);
      DecodeLine(DataLine(e.payload), [OtherLine] + others, e.name);
      DecodeLine(EventLine(e.name), [DataLine(e.payload)] + ([OtherLine] + others), OtherEvent);
      assert [e] + events[1..] == events;
    }
  }
}
