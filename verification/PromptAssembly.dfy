/** Building the prompt of a round from the persisted conversation rows. */
module PromptAssembly {
  import opened Messages
  import opened PromptRepair
  import opened RepairNormalForm

  datatype StopReason = NoReason | ToolCallsReason | ContextSummary | Terminal(reason: string)

  /** `raw` is the stored text of a row with attachments; only user rows render their parts. */
  datatype RowContent = PlainText(text: string) | WithAttachments(parts: seq<ContentPart>, raw: string)

  /** What a summary row says about its coverage; rows that do not parse say nothing. */
  datatype Metadata = NoMetadata | SummaryMetadata(coverageRecorded: bool, resumeFromMessageId: string)

  datatype Row = Row(
    id: string,
    role: Role,
    stopReason: StopReason,
    content: RowContent,
    toolCalls: seq<ToolCall>,
    toolCallId: string,
    toolName: string,
    metadata: Metadata)

  function RowText(row: Row): string {
    match row.content
    case PlainText(text) => text
    case WithAttachments(_, raw) => raw
  }

  function MessageOf(row: Row): ChatMessage {
    ChatMessage(
      row.role,
      if row.role == User && row.content.WithAttachments? then Parts(row.content.parts) else Text(RowText(row)),
      if row.role == Assistant then row.toolCalls else [],
      if row.role == Tool then row.toolCallId else "",
      if row.role == Tool then row.toolName else "",
      row.id)
  }

  predicate IsSummaryRow(row: Row) {
    row.stopReason == ContextSummary
  }

  /** The rows as messages; summaries are rendered as the header instead. */
  function Transcript(rows: seq<Row>): seq<ChatMessage> {
    if rows == [] then []
    else (if IsSummaryRow(rows[0]) then [] else [MessageOf(rows[0])]) + Transcript(rows[1..])
  }

  // ---------------------------------------------------------------------------------------
  // Where the verbatim transcript resumes.
  // ---------------------------------------------------------------------------------------

  /** The index of the last summary row, or -1. */
  function LastSummary(rows: seq<Row>): (index: int)
    ensures -1 <= index < |rows|
    ensures index >= 0 ==> rows[index].role == System && IsSummaryRow(rows[index])
    ensures forall i :: index < i < |rows| ==> !(rows[i].role == System && IsSummaryRow(rows[i]))
  {
    if rows == [] then -1
    else
      var last := |rows| - 1;
      if rows[last].role == System && IsSummaryRow(rows[last]) then last else LastSummary(rows[..last])
  }

  /** The index of the last user row, or the length when there is none. */
  function LatestUser(rows: seq<Row>): (index: nat)
    ensures index <= |rows|
    ensures index < |rows| ==> rows[index].role == User
    ensures forall i :: 0 <= i < |rows| && rows[i].role == User ==> i <= index < |rows|
  {
    if rows == [] then 0
    else
      var last := |rows| - 1;
      if rows[last].role == User then last
      else
        var earlier := LatestUser(rows[..last]);
        if earlier == last then |rows| else earlier
  }

  function FirstWithId(rows: seq<Row>, id: string): Option<nat> {
    if rows == [] then None
    else if rows[0].id == id then Some(0)
    else match FirstWithId(rows[1..], id) case None => None case Some(i) => Some(i + 1)
  }

  function RecordedResume(rows: seq<Row>, summary: nat): (index: Option<nat>)
    requires summary < |rows|
    ensures index.Some? ==> index.value <= |rows|
  {
    match rows[summary].metadata
    case NoMetadata => None
    case SummaryMetadata(recorded, id) =>
      if !recorded then None
      else if id == "" then Some(summary + 1)
      else
        FirstWithIdFinds(rows, id);
        FirstWithId(rows, id)
  }

  lemma {:induction false} FirstWithIdFinds(rows: seq<Row>, id: string)
    ensures match FirstWithId(rows, id)
            case Some(i) => i < |rows| && rows[i].id == id && forall j :: 0 <= j < i ==> rows[j].id != id
            case None => forall j :: 0 <= j < |rows| ==> rows[j].id != id
  {
    if rows != [] && rows[0].id != id {
      FirstWithIdFinds(rows[1..], id);
      assert forall j :: 0 < j < |rows| ==> rows[j] == rows[1..][j - 1];
    }
  }

  predicate Terminates(row: Row) {
    row.stopReason.Terminal?
  }

  /** The first user row, or the row behind the first finished turn, at or after `from`. */
  function NextTurnStart(rows: seq<Row>, from: nat): (index: Option<nat>)
    requires from <= |rows|
    ensures index.Some? ==> from <= index.value <= |rows|
    decreases |rows| - from
  {
    if from == |rows| then None
    else if rows[from].role == User then Some(from)
    else if Terminates(rows[from]) then Some(from + 1)
    else NextTurnStart(rows, from + 1)
  }

  function SkipFragments(rows: seq<Row>, start: nat): (index: nat)
    requires start <= |rows|
    ensures start <= index <= |rows|
  {
    match NextTurnStart(rows, start)
    case None => start
    case Some(index) => index
  }

  function Min(a: nat, b: nat): nat { if a < b then a else b }

  function StartIndex(rows: seq<Row>): (start: nat)
    ensures start <= |rows|
  {
    var summary := LastSummary(rows);
    if summary < 0 then 0
    else match RecordedResume(rows, summary)
      case Some(index) => index
      case None => Min(SkipFragments(rows, summary + 1), LatestUser(rows))
  }

  function SummaryText(rows: seq<Row>): string {
    var summary := LastSummary(rows);
    if summary < 0 then "" else RowText(rows[summary])
  }

  method FindLastSummaryIndex(rows: seq<Row>) returns (index: int)
    ensures index == LastSummary(rows)
  {
    index := |rows| - 1;
    while index >= 0
      invariant -1 <= index < |rows|
      invariant LastSummary(rows[..index + 1]) == LastSummary(rows)
    {
      assert rows[..index + 1][..index] == rows[..index];
      if rows[index].role == System && IsSummaryRow(rows[index]) {
        return;
      }
      index := index - 1;
    }
  }

  method LatestUserMessageIndex(rows: seq<Row>) returns (index: nat)
    ensures index == LatestUser(rows)
  {
    var position := |rows| - 1;
    while position >= 0
      invariant -1 <= position < |rows|
      invariant forall i :: position < i < |rows| ==> rows[i].role != User
    {
      if rows[position].role == User {
        return position;
      }
      position := position - 1;
    }
    return |rows|;
  }

  method SkipOrphanedTurnFragments(rows: seq<Row>, startIndex: nat) returns (index: nat)
    requires startIndex <= |rows|
    ensures index == SkipFragments(rows, startIndex)
  {
    if startIndex >= |rows| || rows[startIndex].role == User {
      return startIndex;
    }
    index := startIndex;
    while index < |rows|
      invariant startIndex <= index <= |rows|
      invariant NextTurnStart(rows, index) == NextTurnStart(rows, startIndex)
    {
      if rows[index].role == User {
        return;
      }
      var stopReason := rows[index].stopReason;
      if stopReason != NoReason && stopReason != ToolCallsReason && stopReason != ContextSummary {
        return index + 1;
      }
      index := index + 1;
    }
    return startIndex;
  }

  method RecordedResumeIndex(rows: seq<Row>, summaryIndex: nat) returns (index: Option<nat>)
    requires summaryIndex < |rows|
    ensures index == RecordedResume(rows, summaryIndex)
  {
    var metadata := rows[summaryIndex].metadata;
    if metadata.NoMetadata? || !metadata.coverageRecorded {
      return None;
    }
    if metadata.resumeFromMessageId == "" {
      return Some(summaryIndex + 1);
    }
    FirstWithIdFinds(rows, metadata.resumeFromMessageId);
    for position := 0 to |rows|
      invariant forall i :: 0 <= i < position ==> rows[i].id != metadata.resumeFromMessageId
    {
      if rows[position].id == metadata.resumeFromMessageId {
        return Some(position);
      }
    }
    return None;
  }

  method SummaryStartIndex(rows: seq<Row>) returns (start: nat, summaryText: string)
    ensures start == StartIndex(rows) && summaryText == SummaryText(rows)
  {
    var summaryIndex := FindLastSummaryIndex(rows);
    if summaryIndex < 0 {
      return 0, "";
    }
    summaryText := RowText(rows[summaryIndex]);
    var recorded := RecordedResumeIndex(rows, summaryIndex);
    if recorded.Some? {
      return recorded.value, summaryText;
    }
    start := SkipOrphanedTurnFragments(rows, summaryIndex + 1);
    var latestUser := LatestUserMessageIndex(rows);
    start := Min(start, latestUser);
  }

  // ---------------------------------------------------------------------------------------
  // The prompt.
  // ---------------------------------------------------------------------------------------

  const SUMMARY_PREFIX := "Previous conversation summary:\n"

  function Head(systemPrompt: string, summaryText: string): seq<ChatMessage> {
    [SystemMessage(systemPrompt)] +
    (if summaryText == "" then [] else [SystemMessage(SUMMARY_PREFIX + summaryText)])
  }

  function Assemble(systemPrompt: string, rows: seq<Row>, start: nat): seq<ChatMessage>
    requires start <= |rows|
  {
    Repair(Head(systemPrompt, SummaryText(rows)) + Transcript(rows[start..]))
  }

  predicate HasTranscript(messages: seq<ChatMessage>) {
    exists i :: 0 <= i < |messages| && messages[i].role != System
  }

  function Overlays(texts: seq<string>): seq<ChatMessage> {
    if texts == [] then [] else [SystemMessage(texts[0])] + Overlays(texts[1..])
  }

  /** Where the prompt of `rows` really starts: the whole history when the cut left nothing to answer. */
  function Base(systemPrompt: string, rows: seq<Row>): (base: nat)
    ensures base <= StartIndex(rows) <= |rows|
  {
    if HasTranscript(Assemble(systemPrompt, rows, StartIndex(rows))) then StartIndex(rows) else 0
  }

  function Build(systemPrompt: string, rows: seq<Row>, overlays: seq<string>): seq<ChatMessage> {
    Assemble(systemPrompt, rows, Base(systemPrompt, rows)) + Overlays(overlays)
  }

  lemma {:induction false} TranscriptAt(rows: seq<Row>, index: nat)
    requires index < |rows|
    ensures Transcript(rows[index..])
         == (if IsSummaryRow(rows[index]) then [] else [MessageOf(rows[index])]) + Transcript(rows[index + 1..])
  {
    assert rows[index..][1..] == rows[index + 1..];
  }

  method AppendTranscript(
    initial: seq<ChatMessage>, rows: seq<Row>, startIndex: nat) returns (messages: seq<ChatMessage>)
    requires startIndex <= |rows|
    ensures messages == initial + Transcript(rows[startIndex..])
  {
    messages := initial;
    ghost var whole := initial + Transcript(rows[startIndex..]);
    for index := startIndex to |rows|
      invariant messages + Transcript(rows[index..]) == whole
    {
      ghost var rest := Transcript(rows[index + 1..]);
      TranscriptAt(rows, index);
      if !IsSummaryRow(rows[index]) {
        var message := MessageOf(rows[index]);
        assert (messages + [message]) + rest == messages + ([message] + rest);
        messages := messages + [message];
      } else {
        assert [] + rest == rest;
      }
    }
  }

  method AssembleMessages(systemPrompt: string, rows: seq<Row>, startIndex: nat, summaryText: string)
    returns (messages: seq<ChatMessage>)
    requires startIndex <= |rows| && summaryText == SummaryText(rows)
    ensures messages == Assemble(systemPrompt, rows, startIndex)
  {
    messages := [SystemMessage(systemPrompt)];
    if summaryText != "" {
      messages := messages + [SystemMessage(SUMMARY_PREFIX + summaryText)];
    }
    assert messages == Head(systemPrompt, summaryText);
    messages := AppendTranscript(messages, rows, startIndex);
    messages := FixInterruptedToolCalls(messages);
    messages := DropUnpairedToolResults(messages);
  }

  method CarriesTranscript(messages: seq<ChatMessage>) returns (found: bool)
    ensures found == HasTranscript(messages)
  {
    for index := 0 to |messages|
      invariant forall i :: 0 <= i < index ==> messages[i].role == System
    {
      if messages[index].role != System {
        return true;
      }
    }
    return false;
  }

  method BuildMessages(systemPrompt: string, rows: seq<Row>, overlays: seq<string>) returns (messages: seq<ChatMessage>)
    ensures messages == Build(systemPrompt, rows, overlays)
  {
    var start, summaryText := SummaryStartIndex(rows);
    messages := AssembleMessages(systemPrompt, rows, start, summaryText);
    var found := CarriesTranscript(messages);
    if !found {
      messages := AssembleMessages(systemPrompt, rows, 0, summaryText);
    }
    ghost var assembled := messages;
    for index := 0 to |overlays|
      invariant messages + Overlays(overlays[index..]) == assembled + Overlays(overlays)
    {
      assert overlays[index..][1..] == overlays[index + 1..];
      messages := messages + [SystemMessage(overlays[index])];
    }
  }

  // ---------------------------------------------------------------------------------------
  // Properties of every prompt.
  // ---------------------------------------------------------------------------------------

  lemma {:induction false} TranscriptsOnlyAssistantsCall(rows: seq<Row>)
    ensures OnlyAssistantsCall(Transcript(rows))
  {
    if rows != [] { TranscriptsOnlyAssistantsCall(rows[1..]); }
  }

  ghost predicate AllSystem(messages: seq<ChatMessage>) {
    forall i :: 0 <= i < |messages| ==> messages[i].role == System && messages[i].toolCalls == []
  }

  /** System messages in front of a transcript take no part in its repair. */
  lemma {:induction false} RepairSkipsSystems(
    head: seq<ChatMessage>, transcript: seq<ChatMessage>, announced: set<string>)
    requires AllSystem(head)
    ensures Fix(head + transcript) == head + Fix(transcript)
    ensures Drop(head + transcript, announced) == head + Drop(transcript, announced)
  {
    if head == [] {
      assert head + transcript == transcript;
    } else {
      var rest := head[1..] + transcript;
      assert head + transcript == [head[0]] + rest;
      RepairSkipsOne(head[0], rest, announced);
      assert forall i :: 0 <= i < |head| - 1 ==> head[1..][i] == head[i + 1];
      RepairSkipsSystems(head[1..], transcript, announced);
      Prepended(head, Fix(transcript));
      Prepended(head, Drop(transcript, announced));
    }
  }

  lemma {:induction false} RepairSkipsOne(system: ChatMessage, rest: seq<ChatMessage>, announced: set<string>)
    requires system.role == System && system.toolCalls == []
    ensures Fix([system] + rest) == [system] + Fix(rest)
    ensures Drop([system] + rest, announced) == [system] + Drop(rest, announced)
  {
    assert ([system] + rest)[1..] == rest;
    assert CallIds(system) == {} && announced + CallIds(system) == announced;
  }

  lemma {:induction false} Prepended(head: seq<ChatMessage>, rest: seq<ChatMessage>)
    requires head != []
    ensures head + rest == [head[0]] + (head[1..] + rest)
  {
  }

  lemma {:induction false} OverlaysAreSystem(texts: seq<string>)
    ensures AllSystem(Overlays(texts))
    ensures forall i :: 0 <= i < |Overlays(texts)| ==> Overlays(texts)[i].sourceMessageId == ""
  {
    if texts != [] { OverlaysAreSystem(texts[1..]); }
  }

  lemma {:induction false} AssembleIsHeadAndRepair(systemPrompt: string, rows: seq<Row>, start: nat)
    requires start <= |rows|
    ensures Assemble(systemPrompt, rows, start)
         == Head(systemPrompt, SummaryText(rows)) + Repair(Transcript(rows[start..]))
  {
    var head, transcript := Head(systemPrompt, SummaryText(rows)), Transcript(rows[start..]);
    RepairSkipsSystems(head, transcript, {});
    RepairSkipsSystems(head, Fix(transcript), {});
  }

  lemma {:induction false} SystemsBehindKeepReplies(messages: seq<ChatMessage>, systems: seq<ChatMessage>)
    requires AllSystem(systems)
    ensures Replies(messages + systems) == Replies(messages)
    ensures Answered(messages) ==> Answered(messages + systems)
  {
    if messages == [] {
      assert messages + systems == systems;
      SystemsAlone(systems, {});
    } else {
      assert (messages + systems)[1..] == messages[1..] + systems;
      SystemsBehindKeepReplies(messages[1..], systems);
    }
  }

  lemma {:induction false} DropBehind(messages: seq<ChatMessage>, systems: seq<ChatMessage>, announced: set<string>)
    requires AllSystem(systems)
    ensures Drop(messages + systems, announced) == Drop(messages, announced) + systems
  {
    if messages == [] {
      assert messages + systems == systems;
      SystemsAlone(systems, announced);
    } else {
      assert (messages + systems)[1..] == messages[1..] + systems;
      DropBehind(messages[1..], systems, announced + CallIds(messages[0]));
    }
  }

  lemma {:induction false} SystemsAlone(systems: seq<ChatMessage>, announced: set<string>)
    requires AllSystem(systems)
    ensures Replies(systems) == {} && Answered(systems) && Drop(systems, announced) == systems
  {
    if systems != [] {
      assert forall i :: 0 <= i < |systems| - 1 ==> systems[1..][i] == systems[i + 1];
      SystemsAlone(systems[1..], announced + CallIds(systems[0]));
    }
  }

  /** Every prompt has its calls answered in turn and its results announced. */
  lemma {:induction false} BuiltPromptIsRepaired(systemPrompt: string, rows: seq<Row>, overlays: seq<string>)
    ensures Answered(Build(systemPrompt, rows, overlays))
    ensures Drop(Build(systemPrompt, rows, overlays), {}) == Build(systemPrompt, rows, overlays)
    ensures OnlyAssistantsCall(Build(systemPrompt, rows, overlays))
  {
    var base := Base(systemPrompt, rows);
    var raw := Head(systemPrompt, SummaryText(rows)) + Transcript(rows[base..]);
    TranscriptsOnlyAssistantsCall(rows[base..]);
    assert OnlyAssistantsCall(raw);
    RepairIsNormalForm(raw);
    PairedMeansDropsNothing(Repair(raw), {});
    OverlaysAreSystem(overlays);
    SystemsBehindKeepReplies(Repair(raw), Overlays(overlays));
    DropBehind(Repair(raw), Overlays(overlays), {});
  }

  lemma {:induction false} TranscriptMembers(rows: seq<Row>, i: nat)
    requires i < |rows| && !IsSummaryRow(rows[i])
    ensures MessageOf(rows[i]) in Transcript(rows)
  {
    if i > 0 { TranscriptMembers(rows[1..], i - 1); }
  }

  lemma {:induction false} KeepsNonTools(systemPrompt: string, rows: seq<Row>, start: nat, i: nat)
    requires start <= i < |rows| && !IsSummaryRow(rows[i]) && rows[i].role != Tool
    ensures MessageOf(rows[i]) in Assemble(systemPrompt, rows, start)
  {
    var raw := Head(systemPrompt, SummaryText(rows)) + Transcript(rows[start..]);
    TranscriptMembers(rows[start..], i - start);
    TranscriptsOnlyAssistantsCall(rows[start..]);
    assert OnlyAssistantsCall(raw);
    RepairIsNormalForm(raw);
    NonToolsMembers(raw, MessageOf(rows[i]));
    NonToolsMembers(Repair(raw), MessageOf(rows[i]));
  }

  lemma {:induction false} UserRowGivesTranscript(systemPrompt: string, rows: seq<Row>, start: nat, user: nat)
    requires start <= user < |rows| && rows[user].role == User && !IsSummaryRow(rows[user])
    ensures HasTranscript(Assemble(systemPrompt, rows, start))
  {
    KeepsNonTools(systemPrompt, rows, start, user);
    var assembled := Assemble(systemPrompt, rows, start);
    var i :| 0 <= i < |assembled| && assembled[i] == MessageOf(rows[user]);
    assert assembled[i].role != System;
  }

  /** A conversation with a user message is never turned into a prompt there is nothing to answer in. */
  lemma {:induction false} PromptIsAnswerable(systemPrompt: string, rows: seq<Row>, overlays: seq<string>, user: nat)
    requires user < |rows| && rows[user].role == User && !IsSummaryRow(rows[user])
    ensures HasTranscript(Build(systemPrompt, rows, overlays))
  {
    UserRowGivesTranscript(systemPrompt, rows, 0, user);
    var assembled := Assemble(systemPrompt, rows, Base(systemPrompt, rows));
    var i :| 0 <= i < |assembled| && assembled[i].role != System;
    assert Build(systemPrompt, rows, overlays)[i] == assembled[i];
  }

  lemma {:induction false} GuessIsInBounds(rows: seq<Row>)
    requires LastSummary(rows) < 0 || RecordedResume(rows, LastSummary(rows)).None?
    ensures StartIndex(rows) <= |rows|
    ensures LatestUser(rows) < |rows| ==> StartIndex(rows) <= LatestUser(rows)
  {
  }

  /** Without a recorded resume point the guess keeps the latest user message in the prompt. */
  lemma {:induction false} GuessKeepsLatestUser(systemPrompt: string, rows: seq<Row>, overlays: seq<string>)
    requires LastSummary(rows) < 0 || RecordedResume(rows, LastSummary(rows)).None?
    requires LatestUser(rows) < |rows| && !IsSummaryRow(rows[LatestUser(rows)])
    ensures StartIndex(rows) <= LatestUser(rows)
    ensures Base(systemPrompt, rows) == StartIndex(rows)
    ensures MessageOf(rows[LatestUser(rows)]) in Build(systemPrompt, rows, overlays)
  {
    var user := LatestUser(rows);
    GuessIsInBounds(rows);
    UserRowGivesTranscript(systemPrompt, rows, StartIndex(rows), user);
    KeepsNonTools(systemPrompt, rows, StartIndex(rows), user);
  }
}
