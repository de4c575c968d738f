/** What a built prompt says, in terms of the stored rows alone. */
module RenderedPrompt {
  import opened Messages
  import opened PromptRepair
  import opened RepairNormalForm
  import opened PromptAssembly

  /** The message says what the row stores, and nothing else. */
  ghost predicate Says(message: ChatMessage, row: Row) {
    message.sourceMessageId == row.id && message.role == row.role &&
    (row.content.PlainText? ==> message.content == Text(row.content.text)) &&
    (row.content.WithAttachments? ==>
      message.content == if row.role == User then Parts(row.content.parts) else Text(row.content.raw)) &&
    message.toolCalls == (if row.role == Assistant then row.toolCalls else []) &&
    message.toolCallId == (if row.role == Tool then row.toolCallId else "") &&
    message.name == (if row.role == Tool then row.toolName else "")
  }

  ghost predicate Holds(messages: seq<ChatMessage>, row: Row) {
    exists k :: 0 <= k < |messages| && Says(messages[k], row)
  }

  /** A message of the system with this text and nothing else. */
  ghost predicate IsNote(message: ChatMessage, text: string) {
    message.role == System && message.content == Text(text) && message.toolCalls == [] &&
    message.toolCallId == "" && message.name == "" && message.sourceMessageId == ""
  }

  /** The result that stands in for the missing one of a call. */
  ghost predicate IsInterruption(message: ChatMessage, id: string, name: string) {
    message.role == Tool && message.content == Text("Tool call was interrupted and did not complete.") &&
    message.toolCallId == id && message.name == name && message.toolCalls == [] && message.sourceMessageId == ""
  }

  /** The ids of the calls a row announces. */
  function OfferedIds(row: Row): set<string> {
    if row.role == Assistant && row.stopReason != ContextSummary then set call | call in row.toolCalls :: call.id
    else {}
  }

  /** `messages` says what `rows` store, row by row: a summary row and a result whose id nothing announced are
      left out, and interruptions of announced calls, or of calls without an id, are put in. */
  ghost predicate Renders(messages: seq<ChatMessage>, rows: seq<Row>, announced: set<string>)
    decreases |rows| + |messages|
  {
    if rows == [] && messages == [] then true
    else if messages != [] && RendersInterruption(messages, rows, announced) then true
    else if rows == [] then false
    else if LeftOut(rows[0], announced) then Renders(messages, rows[1..], announced)
    else
      messages != [] && Says(messages[0], rows[0]) &&
      Renders(messages[1..], rows[1..], announced + OfferedIds(rows[0]))
  }

  ghost predicate RendersInterruption(messages: seq<ChatMessage>, rows: seq<Row>, announced: set<string>)
    requires messages != []
    decreases |rows| + |messages|, 0
  {
    IsInterruption(messages[0], messages[0].toolCallId, messages[0].name) &&
    messages[0].toolCallId in announced + {""} && Renders(messages[1..], rows, announced)
  }

  ghost predicate LeftOut(row: Row, announced: set<string>) {
    row.stopReason == ContextSummary ||
    (row.role == Tool && row.toolCallId != "" && row.toolCallId !in announced)
  }

  lemma {:induction false} MessageSaysItsRow(message: ChatMessage, row: Row)
    ensures message == MessageOf(row) <==> Says(message, row)
    ensures !IsSummaryRow(row) ==> CallIds(MessageOf(row)) == OfferedIds(row)
  {
  }

  lemma {:induction false} HoldsMeansContains(messages: seq<ChatMessage>, row: Row)
    ensures MessageOf(row) in messages <==> Holds(messages, row)
  {
    MessageSaysItsRow(MessageOf(row), row);
    if Holds(messages, row) {
      var k :| 0 <= k < |messages| && Says(messages[k], row);
      MessageSaysItsRow(messages[k], row);
    }
  }

  // ---------------------------------------------------------------------------------------
  // The synthetic results of an interrupted turn.
  // ---------------------------------------------------------------------------------------

  /** One interruption for each call without an answer, in the order of the calls. */
  ghost predicate InterruptUnanswered(results: seq<ChatMessage>, calls: seq<ToolCall>, answered: set<string>) {
    if calls == [] then results == []
    else if calls[0].id in answered then InterruptUnanswered(results, calls[1..], answered)
    else
      results != [] && IsInterruption(results[0], calls[0].id, calls[0].name) &&
      InterruptUnanswered(results[1..], calls[1..], answered)
  }

  lemma {:induction false} MissingAreInterruptions(calls: seq<ToolCall>, answered: set<string>)
    ensures InterruptUnanswered(Missing(calls, answered), calls, answered)
  {
    if calls != [] {
      var rest := Missing(calls[1..], answered);
      MissingAreInterruptions(calls[1..], answered);
      assert [] + rest == rest && ([Synthetic(calls[0])] + rest)[1..] == rest;
    }
  }

  lemma {:induction false} FixKeepsReplies(messages: seq<ChatMessage>)
    ensures Replies(Fix(messages)) == Replies(messages)
  {
    if messages != [] {
      FixKeepsReplies(messages[1..]);
      if messages[0].role != Assistant { assert Fix(messages)[1..] == Fix(messages[1..]); }
    }
  }

  lemma {:induction false} FixBehindResults(tools: seq<ChatMessage>, rest: seq<ChatMessage>)
    requires AllTools(tools)
    ensures Fix(tools + rest) == tools + Fix(rest)
  {
    if tools == [] {
      assert tools + rest == rest && tools + Fix(rest) == Fix(rest);
    } else {
      assert (tools + rest)[1..] == tools[1..] + rest;
      FixBehindResults(tools[1..], rest);
      assert tools + Fix(rest) == [tools[0]] + (tools[1..] + Fix(rest));
    }
  }

  lemma {:induction false} FixStart(messages: seq<ChatMessage>)
    requires messages == [] || messages[0].role != Tool
    ensures if messages == [] then Fix(messages) == [] else Fix(messages) != [] && Fix(messages)[0] == messages[0]
  {
  }

  lemma {:induction false} InsertBehindResults(
    tools: seq<ChatMessage>, rest: seq<ChatMessage>, results: seq<ChatMessage>)
    requires AllTools(tools) && (rest == [] || rest[0].role != Tool)
    ensures InsertBehindToolRun(tools + rest, results) == tools + (results + rest)
  {
    if tools == [] {
      assert tools + rest == rest && tools + (results + rest) == results + rest;
    } else {
      assert (tools + rest)[1..] == tools[1..] + rest;
      InsertBehindResults(tools[1..], rest, results);
      assert tools + (results + rest) == [tools[0]] + (tools[1..] + (results + rest));
    }
  }

  /** An interrupted turn: behind the results it has, each call that no result answers before the next user or
      assistant message gets one interruption, in the order of the calls. */
  lemma {:induction false} TurnIsCompleted(assistant: ChatMessage, tools: seq<ChatMessage>, rest: seq<ChatMessage>)
    returns (interruptions: seq<ChatMessage>)
    requires assistant.role == Assistant && AllTools(tools) && (rest == [] || rest[0].role != Tool)
    ensures Fix([assistant] + (tools + rest)) == [assistant] + (tools + (interruptions + Fix(rest)))
    ensures InterruptUnanswered(interruptions, assistant.toolCalls, Replies(tools + rest) - {""})
  {
    var behind := tools + rest;
    FixKeepsReplies(behind);
    interruptions := Missing(assistant.toolCalls, Replies(behind) - {""});
    MissingAreInterruptions(assistant.toolCalls, Replies(behind) - {""});
    FixBehindResults(tools, rest);
    FixStart(rest);
    InsertBehindResults(tools, Fix(rest), interruptions);
    assert ([assistant] + behind)[1..] == behind;
  }

  // ---------------------------------------------------------------------------------------
  // Every message of the prompt, in order.
  // ---------------------------------------------------------------------------------------

  lemma {:induction false} SyntheticIsInterruption(message: ChatMessage)
    requires IsSynthetic(message)
    ensures IsInterruption(message, message.toolCallId, message.name) && CallIds(message) == {}
  {
  }

  lemma {:induction false} LeftOutIsDropped(row: Row, announced: set<string>)
    requires !IsSummaryRow(row)
    ensures LeftOut(row, announced) <==> Orphan(MessageOf(row), announced + CallIds(MessageOf(row)))
    ensures LeftOut(row, announced) ==> CallIds(MessageOf(row)) == {}
  {
  }

  lemma {:induction false} RepairRenders(rows: seq<Row>, after: seq<ChatMessage>, announced: set<string>)
    requires AddsOnlySynthetic(Transcript(rows), after)
    ensures Renders(Drop(after, announced), rows, announced)
    decreases |rows| + |after|
  {
    var before := Transcript(rows);
    if rows != [] && IsSummaryRow(rows[0]) {
      assert before == Transcript(rows[1..]);
      RepairRenders(rows[1..], after, announced);
    } else if after != [] {
      var announced' := announced + CallIds(after[0]);
      var rest := Drop(after[1..], announced');
      if before != [] && after[0] == before[0] && AddsOnlySynthetic(before[1..], after[1..]) {
        assert before[1..] == Transcript(rows[1..]) && after[0] == MessageOf(rows[0]);
        RepairRenders(rows[1..], after[1..], announced');
        LeftOutIsDropped(rows[0], announced);
        MessageSaysItsRow(after[0], rows[0]);
        assert announced + {} == announced;
        assert ([after[0]] + rest)[1..] == rest && [] + rest == rest;
      } else {
        RepairRenders(rows, after[1..], announced');
        SyntheticIsInterruption(after[0]);
        assert announced' == announced;
        assert ([after[0]] + rest)[1..] == rest && [] + rest == rest;
      }
    }
  }

  ghost predicate Stores(row: Row, text: string) {
    row.content == PlainText(text) || (row.content.WithAttachments? && row.content.raw == text)
  }

  ghost predicate IsLastSummary(rows: seq<Row>, summary: nat) {
    summary < |rows| && rows[summary].role == System && rows[summary].stopReason == ContextSummary &&
    forall i :: summary < i < |rows| ==> rows[i].role != System || rows[i].stopReason != ContextSummary
  }

  /** The system prompt, and behind it the text of the last summary unless that is empty or there is none. */
  ghost predicate IsHeader(header: seq<ChatMessage>, systemPrompt: string, rows: seq<Row>) {
    1 <= |header| <= 2 && IsNote(header[0], systemPrompt) &&
    (|header| == 1 ==> forall summary: nat :: IsLastSummary(rows, summary) ==> Stores(rows[summary], "")) &&
    (|header| == 2 ==> exists summary: nat, text: string :: text != "" && ShowsSummary(header[1], rows, summary, text))
  }

  ghost predicate ShowsSummary(message: ChatMessage, rows: seq<Row>, summary: nat, text: string) {
    IsLastSummary(rows, summary) && Stores(rows[summary], text) &&
    IsNote(message, "Previous conversation summary:\n" + text)
  }

  ghost predicate AreNotes(messages: seq<ChatMessage>, texts: seq<string>) {
    |messages| == |texts| && forall i :: 0 <= i < |texts| ==> IsNote(messages[i], texts[i])
  }

  lemma {:induction false} HeadIsHeader(systemPrompt: string, rows: seq<Row>)
    ensures IsHeader(Head(systemPrompt, SummaryText(rows)), systemPrompt, rows)
  {
    var last := LastSummary(rows);
    if last >= 0 {
      assert IsLastSummary(rows, last) && Stores(rows[last], SummaryText(rows));
      assert SummaryText(rows) != "" ==>
        ShowsSummary(Head(systemPrompt, SummaryText(rows))[1], rows, last, SummaryText(rows));
      assert forall summary: nat :: IsLastSummary(rows, summary) ==> summary == last;
    }
  }

  lemma {:induction false} OverlaysAreNotes(texts: seq<string>)
    ensures AreNotes(Overlays(texts), texts)
  {
    if texts != [] { OverlaysAreNotes(texts[1..]); }
  }

  /** Every built prompt: the system prompt and the last summary, then what the rows from its start on store,
      row by row, then the overlays. */
  lemma {:induction false} PromptSaysRows(systemPrompt: string, rows: seq<Row>, overlays: seq<string>)
    returns (header: seq<ChatMessage>, body: seq<ChatMessage>, notes: seq<ChatMessage>)
    ensures Build(systemPrompt, rows, overlays) == header + body + notes
    ensures IsHeader(header, systemPrompt, rows) && AreNotes(notes, overlays)
    ensures Renders(body, rows[Base(systemPrompt, rows)..], {})
  {
    var suffix := rows[Base(systemPrompt, rows)..];
    header, body, notes := Head(systemPrompt, SummaryText(rows)), Repair(Transcript(suffix)), Overlays(overlays);
    AssembleIsHeadAndRepair(systemPrompt, rows, Base(systemPrompt, rows));
    HeadIsHeader(systemPrompt, rows);
    OverlaysAreNotes(overlays);
    FixAddsOnlySynthetic(Transcript(suffix));
    RepairRenders(suffix, Fix(Transcript(suffix)), {});
  }

  // ---------------------------------------------------------------------------------------
  // Where the transcript starts.
  // ---------------------------------------------------------------------------------------

  ghost predicate FirstWith(rows: seq<Row>, id: string, i: nat) {
    i < |rows| && rows[i].id == id && forall j :: 0 <= j < i ==> rows[j].id != id
  }

  /** The row of the latest user message, or the end when there is none. */
  ghost predicate IsLatestUser(rows: seq<Row>, user: nat) {
    user <= |rows| && (user < |rows| ==> rows[user].role == User) &&
    forall i :: 0 <= i < |rows| && rows[i].role == User ==> i <= user < |rows|
  }

  ghost predicate EndsWalk(row: Row) {
    row.role == User || row.stopReason !in {NoReason, ToolCallsReason, ContextSummary}
  }

  /** The first user row or the row behind the first finished turn, or `from` itself when there is neither. */
  ghost predicate IsGuess(rows: seq<Row>, from: nat, guess: nat) {
    (guess == from && forall i :: from <= i < |rows| ==> !EndsWalk(rows[i])) ||
    (from <= guess < |rows| && rows[guess].role == User && forall i :: from <= i < guess ==> !EndsWalk(rows[i])) ||
    (from < guess <= |rows| && rows[guess - 1].role != User && EndsWalk(rows[guess - 1]) &&
     forall i :: from <= i < guess - 1 ==> !EndsWalk(rows[i]))
  }

  lemma {:induction false} WalkGuesses(rows: seq<Row>, from: nat, at: nat)
    requires from <= at <= |rows| && forall i :: from <= i < at ==> !EndsWalk(rows[i])
    ensures IsGuess(rows, from, if NextTurnStart(rows, at).Some? then NextTurnStart(rows, at).value else from)
    decreases |rows| - at
  {
    if at < |rows| && !EndsWalk(rows[at]) { WalkGuesses(rows, from, at + 1); }
  }

  lemma {:induction false} GuessIsUnique(rows: seq<Row>, from: nat, left: nat, right: nat)
    requires IsGuess(rows, from, left) && IsGuess(rows, from, right)
    ensures left == right
  {
    assert left < |rows| && rows[left].role == User ==> EndsWalk(rows[left]);
    assert right < |rows| && rows[right].role == User ==> EndsWalk(rows[right]);
  }

  lemma {:induction false} NoSummaryStartsAtFirstRow(rows: seq<Row>)
    requires forall summary: nat :: !IsLastSummary(rows, summary)
    ensures StartIndex(rows) == 0
  {
    if LastSummary(rows) >= 0 { assert IsLastSummary(rows, LastSummary(rows)); }
  }

  /** Summary row `summary` records that the transcript resumes at row `i`. */
  ghost predicate RecordsStart(rows: seq<Row>, summary: nat, i: nat) {
    summary < |rows| && rows[summary].metadata.SummaryMetadata? && rows[summary].metadata.coverageRecorded &&
    (if rows[summary].metadata.resumeFromMessageId == "" then i == summary + 1
     else FirstWith(rows, rows[summary].metadata.resumeFromMessageId, i))
  }

  /** Behind the last summary, the prompt starts where that summary recorded it; without a record, or when the
      recorded row is gone, at the guess or at the latest user row, whichever comes first. */
  lemma {:induction false} StartIsRecordedOrGuessed(rows: seq<Row>, summary: nat, guess: nat, user: nat)
    requires IsLastSummary(rows, summary)
    requires IsGuess(rows, summary + 1, guess) && IsLatestUser(rows, user)
    ensures forall i: nat :: RecordsStart(rows, summary, i) ==> StartIndex(rows) == i
    ensures (forall i: nat :: !RecordsStart(rows, summary, i)) ==>
      StartIndex(rows) == if user < guess then user else guess
  {
    assert LastSummary(rows) == summary;
    assert LatestUser(rows) == user;
    RecordIsResumed(rows, summary);
    GuessIsSkipped(rows, summary, guess);
  }

  lemma {:induction false} RecordIsResumed(rows: seq<Row>, summary: nat)
    requires summary < |rows|
    ensures RecordedResume(rows, summary).Some? ==>
      RecordsStart(rows, summary, RecordedResume(rows, summary).value)
    ensures forall i: nat :: RecordsStart(rows, summary, i) ==> RecordedResume(rows, summary) == Some(i)
  {
    if rows[summary].metadata.SummaryMetadata? {
      FirstWithIdFinds(rows, rows[summary].metadata.resumeFromMessageId);
    }
  }

  lemma {:induction false} GuessIsSkipped(rows: seq<Row>, summary: nat, guess: nat)
    requires summary < |rows| && IsGuess(rows, summary + 1, guess)
    ensures SkipFragments(rows, summary + 1) == guess
  {
    WalkGuesses(rows, summary + 1, summary + 1);
    GuessIsUnique(rows, summary + 1, guess, SkipFragments(rows, summary + 1));
  }

  /** Without a recorded resume point the latest user row is in the prompt. */
  lemma {:induction false} LatestUserIsSaid(systemPrompt: string, rows: seq<Row>, overlays: seq<string>, user: nat)
    requires forall summary: nat, i: nat :: IsLastSummary(rows, summary) ==> !RecordsStart(rows, summary, i)
    requires IsLatestUser(rows, user) && user < |rows| && rows[user].stopReason != ContextSummary
    ensures Holds(Build(systemPrompt, rows, overlays), rows[user])
  {
    var last := LastSummary(rows);
    if last >= 0 && RecordedResume(rows, last).Some? {
      FirstWithIdFinds(rows, rows[last].metadata.resumeFromMessageId);
      assert IsLastSummary(rows, last) && RecordsStart(rows, last, RecordedResume(rows, last).value);
    }
    assert LatestUser(rows) == user;
    GuessKeepsLatestUser(systemPrompt, rows, overlays);
    HoldsMeansContains(Build(systemPrompt, rows, overlays), rows[user]);
  }

  /** A row that gives the model something to continue from, wherever the prompt starts. */
  predicate Carries(row: Row) {
    row.stopReason != ContextSummary && row.role != System && (row.role == Tool ==> row.toolCallId == "")
  }

  lemma {:induction false} CarriedRowIsSaid(messages: seq<ChatMessage>, rows: seq<Row>, announced: set<string>, j: nat)
    requires Renders(messages, rows, announced) && j < |rows| && Carries(rows[j])
    ensures HasTranscript(messages)
    decreases |rows| + |messages|
  {
    if messages != [] && RendersInterruption(messages, rows, announced) {
      assert messages[0].role != System;
    } else if LeftOut(rows[0], announced) {
      CarriedRowIsSaid(messages, rows[1..], announced, j - 1);
    } else if j == 0 {
      assert messages[0].role != System;
    } else {
      CarriedRowIsSaid(messages[1..], rows[1..], announced + OfferedIds(rows[0]), j - 1);
      var k :| 0 <= k < |messages[1..]| && messages[1..][k].role != System;
      assert messages[k + 1].role != System;
    }
  }

  lemma {:induction false} NothingIsCarried(rows: seq<Row>)
    requires forall row :: row in rows ==> !Carries(row)
    ensures Fix(Transcript(rows)) == Transcript(rows) && AllSystem(Drop(Transcript(rows), {}))
  {
    if rows != [] {
      assert forall row :: row in rows[1..] ==> row in rows;
      NothingIsCarried(rows[1..]);
      assert !Carries(rows[0]);
      var first, rest := MessageOf(rows[0]), Transcript(rows[1..]);
      if IsSummaryRow(rows[0]) {
        assert Transcript(rows) == rest;
      } else {
        assert Transcript(rows)[1..] == rest && CallIds(first) == {};
        assert {} + CallIds(first) == {};
        assert Drop(Transcript(rows), {}) == (if Orphan(first, {}) then [] else [first]) + Drop(rest, {});
      }
    }
  }

  /** The whole history is replayed exactly when no row from the start on carries anything. */
  lemma {:induction false} WholeHistoryIffNothingCarried(systemPrompt: string, rows: seq<Row>)
    ensures var start := StartIndex(rows);
      Base(systemPrompt, rows) == if exists row :: row in rows[start..] && Carries(row) then start else 0
  {
    var suffix := rows[StartIndex(rows)..];
    var head, body := Head(systemPrompt, SummaryText(rows)), Repair(Transcript(suffix));
    AssembleIsHeadAndRepair(systemPrompt, rows, StartIndex(rows));
    if row :| row in suffix && Carries(row) {
      var j :| 0 <= j < |suffix| && suffix[j] == row;
      CarriedRowMakesTranscript(head, suffix, j);
    } else {
      NothingIsCarried(suffix);
      assert AllSystem(head + body);
    }
  }

  lemma {:induction false} CarriedRowMakesTranscript(head: seq<ChatMessage>, rows: seq<Row>, j: nat)
    requires j < |rows| && Carries(rows[j])
    ensures HasTranscript(head + Repair(Transcript(rows)))
  {
    var body := Repair(Transcript(rows));
    FixAddsOnlySynthetic(Transcript(rows));
    RepairRenders(rows, Fix(Transcript(rows)), {});
    CarriedRowIsSaid(body, rows, {}, j);
    var k :| 0 <= k < |body| && body[k].role != System;
    assert (head + body)[|head| + k].role != System;
  }
}
