/** From the persisted rows to the provider: in the shape a run persists, results and uses pair in both directions. */
module TurnPairs {
  import opened Messages
  import opened PromptRepair
  import opened RepairNormalForm
  import opened KeepBoundary
  import opened PromptAssembly
  import opened Compaction
  import opened Coverage
  import Anthropic

  lemma {:induction false} ShapeIgnoresContent(before: seq<ChatMessage>, after: seq<ChatMessage>, open: set<string>)
    requires SameButToolContent(before, after) && Shaped(before, open)
    ensures Shaped(after, open)
  {
    if before != [] {
      ShapeIgnoresContent(before[1..], after[1..],
        if before[0].role == Tool then open else if before[0].role == Assistant then CallIds(before[0]) else {});
    }
  }

  lemma {:induction false} ShapedBehindHead(head: seq<ChatMessage>, messages: seq<ChatMessage>)
    requires AllSystem(head) && Shaped(messages, {})
    ensures Shaped(head + messages, {})
  {
    if head == [] {
      assert head + messages == messages;
    } else {
      assert (head + messages)[1..] == head[1..] + messages;
      ShapedBehindHead(head[1..], messages);
    }
  }

  lemma {:induction false} ShapedBeforeOverlays(
    messages: seq<ChatMessage>, systems: seq<ChatMessage>, open: set<string>)
    requires Shaped(messages, open) && AllSystem(systems)
    ensures Shaped(messages + systems, open)
  {
    if messages == [] {
      assert messages + systems == systems && systems + [] == systems;
      if systems != [] { ShapedBehindHead(systems[1..], []); assert systems[1..] + [] == systems[1..]; }
    } else {
      assert (messages + systems)[1..] == messages[1..] + systems;
      ShapedBeforeOverlays(messages[1..], systems,
        if messages[0].role == Tool then open else if messages[0].role == Assistant then CallIds(messages[0]) else {});
    }
  }

  lemma {:induction false} ShapedFromAnywhere(messages: seq<ChatMessage>, start: nat)
    requires Shaped(messages, {}) && start <= |messages|
    ensures Shaped(messages[start..], OpenAt(messages, start))
  {
    ShapedMeansEveryResultPairs(messages);
    ShapedFrom(messages, start);
  }

  lemma {:induction false} RepairedSuffixIsShaped(rows: seq<Row>, base: nat)
    requires Shaped(Transcript(rows), {}) && base <= |rows|
    ensures Shaped(Repair(Transcript(rows[base..])), {})
  {
    assert rows == rows[..base] + rows[base..];
    TranscriptOfConcat(rows[..base], rows[base..]);
    var start := |Transcript(rows[..base])|;
    assert Transcript(rows)[start..] == Transcript(rows[base..]);
    ShapedFromAnywhere(Transcript(rows), start);
    TranscriptsOnlyAssistantsCall(rows[base..]);
    RepairKeepsShape(Transcript(rows[base..]), OpenAt(Transcript(rows), start));
  }

  lemma {:induction false} BuildKeepsShape(systemPrompt: string, rows: seq<Row>, overlays: seq<string>)
    requires Shaped(Transcript(rows), {})
    ensures Shaped(Build(systemPrompt, rows, overlays), {})
  {
    var base := Base(systemPrompt, rows);
    RepairedSuffixIsShaped(rows, base);
    BuildParts(systemPrompt, rows, overlays);
    OverlaysAreSystem(overlays);
    var head, middle := Head(systemPrompt, SummaryText(rows)), Repair(Transcript(rows[base..]));
    ShapedBehindHead(head, middle);
    ShapedBeforeOverlays(head + middle, Overlays(overlays), {});
  }

  lemma {:induction false} CompressKeepsShape(messages: seq<ChatMessage>, cut: nat, summaryText: string)
    requires Shaped(messages, {}) && OnlyAssistantsCall(messages) && 1 <= cut <= |messages|
    requires messages[0].role == System
    ensures Shaped(Compress(messages, cut, summaryText), {})
  {
    var head, tail := [messages[0], SystemMessage(SUMMARY_PREFIX + summaryText)], messages[cut..];
    ShapedFromAnywhere(messages, cut);
    DropKeepsShape(tail, OpenAt(messages, cut), {});
    assert OpenAt(messages, cut) * {} == {};
    RepairSkipsSystems(head, tail, {});
    ShapedBehindHead(head, Drop(tail, {}));
  }

  ghost predicate AllEncode(messages: seq<ChatMessage>) {
    forall i :: 0 <= i < |messages| ==> Anthropic.Encodes(messages[i])
  }

  lemma {:induction false} RepairedAssistantIsRow(rows: seq<Row>, message: ChatMessage)
    requires message in Repair(Transcript(rows)) && message.role == Assistant
    ensures exists i: nat :: IsRowMessage(rows, i, message)
  {
    var transcript := Transcript(rows);
    TranscriptsOnlyAssistantsCall(rows);
    RepairIsNormalForm(transcript);
    NonToolsMembers(Repair(transcript), message);
    NonToolsMembers(transcript, message);
    TranscriptIsRows(rows, message);
  }

  lemma {:induction false} BuildKeepsEncoding(systemPrompt: string, rows: seq<Row>, overlays: seq<string>)
    requires forall i :: 0 <= i < |rows| ==> Anthropic.Encodes(MessageOf(rows[i]))
    ensures AllEncode(Build(systemPrompt, rows, overlays))
  {
    var base := Base(systemPrompt, rows);
    var head, middle := Head(systemPrompt, SummaryText(rows)), Repair(Transcript(rows[base..]));
    BuildParts(systemPrompt, rows, overlays);
    OverlaysAreSystem(overlays);
    RepairKeepsEncoding(rows[base..]);
    assert AllEncode(head) && AllEncode(Overlays(overlays));
  }

  lemma {:induction false} RepairKeepsEncoding(rows: seq<Row>)
    requires forall i :: 0 <= i < |rows| ==> Anthropic.Encodes(MessageOf(rows[i]))
    ensures AllEncode(Repair(Transcript(rows)))
  {
    var repaired := Repair(Transcript(rows));
    forall k | 0 <= k < |repaired| ensures Anthropic.Encodes(repaired[k]) {
      if repaired[k].role == Assistant {
        RepairedAssistantIsRow(rows, repaired[k]);
        var i: nat :| IsRowMessage(rows, i, repaired[k]);
      }
    }
  }

  lemma {:induction false} CompressKeepsEncoding(messages: seq<ChatMessage>, cut: nat, summaryText: string)
    requires AllEncode(messages) && 1 <= cut <= |messages|
    ensures AllEncode(Compress(messages, cut, summaryText))
  {
    var raw := [messages[0], SystemMessage(SUMMARY_PREFIX + summaryText)] + messages[cut..];
    forall message | message in Compress(messages, cut, summaryText) ensures Anthropic.Encodes(message) {
      DroppedMembers(raw, {}, message);
    }
  }

  ghost predicate ResultsFollowUses(messages: seq<ChatMessage>) {
    var turns := Anthropic.Request(messages);
    forall t, id, text :: 0 <= t < |turns| && id != "" && Anthropic.HasResult(turns[t], id, text) ==>
      t > 0 && Anthropic.UsesTool(turns[t - 1], id)
  }

  lemma {:induction false} ShapedMeansResultsFollow(messages: seq<ChatMessage>)
    requires Shaped(messages, {}) && AllEncode(messages)
    ensures ResultsFollowUses(messages)
  {
    var turns := Anthropic.Request(messages);
    forall t, id, text | 0 <= t < |turns| && id != "" && Anthropic.HasResult(turns[t], id, text)
      ensures t > 0 && Anthropic.UsesTool(turns[t - 1], id)
    {
      Anthropic.ResultFollowsItsUse(messages, t, id, text);
    }
  }

  /** For every history in the persisted shape whose arguments encode: in the request of the built prompt,
      truncated, cut anywhere and truncated again, each result answers a use of the turn right before. */
  lemma {:induction false} EveryResultFollowsItsUse(
    systemPrompt: string, rows: seq<Row>, overlays: seq<string>,
    truncated: seq<ChatMessage>, cut: nat, summaryText: string, final: seq<ChatMessage>)
    requires Shaped(Transcript(rows), {})
    requires forall i :: 0 <= i < |rows| ==> Anthropic.Encodes(MessageOf(rows[i]))
    requires SameButToolContent(Build(systemPrompt, rows, overlays), truncated)
    requires 1 <= cut <= |truncated|
    requires SameButToolContent(Compress(truncated, cut, summaryText), final)
    ensures ResultsFollowUses(truncated) && ResultsFollowUses(final)
  {
    var built, compressed := Build(systemPrompt, rows, overlays), Compress(truncated, cut, summaryText);
    BuildKeepsShape(systemPrompt, rows, overlays);
    BuildKeepsEncoding(systemPrompt, rows, overlays);
    BuildStartsWithSystem(systemPrompt, rows, overlays);
    BuiltPromptIsRepaired(systemPrompt, rows, overlays);
    ShapeIgnoresContent(built, truncated, {});
    ShapedMeansResultsFollow(truncated);
    CompressKeepsShape(truncated, cut, summaryText);
    CompressKeepsEncoding(truncated, cut, summaryText);
    ShapeIgnoresContent(compressed, final, {});
    ShapedMeansResultsFollow(final);
  }
}
