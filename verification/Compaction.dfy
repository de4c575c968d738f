/** Cutting a prompt, recording where the kept tail starts, and resuming there. */
module Compaction {
  import opened Messages
  import opened PromptRepair
  import opened RepairNormalForm
  import opened KeepBoundary
  import opened PromptAssembly
  import Anthropic

  /** The compressed prompt: system prompt, new summary, and the tail without its orphans. */
  function Compress(messages: seq<ChatMessage>, cut: nat, summaryText: string): seq<ChatMessage>
    requires 1 <= cut <= |messages|
  {
    Drop([messages[0], SystemMessage(SUMMARY_PREFIX + summaryText)] + messages[cut..], {})
  }

  function SourceIds(messages: seq<ChatMessage>): set<string> {
    set message | message in messages && message.sourceMessageId != "" :: message.sourceMessageId
  }

  function FirstRowIn(rows: seq<Row>, ids: set<string>): string {
    if rows == [] then "" else if rows[0].id in ids then rows[0].id else FirstRowIn(rows[1..], ids)
  }

  /** The id of the oldest row that the kept tail still holds, or "" when it holds none. */
  function ResumePoint(rows: seq<Row>, kept: seq<ChatMessage>): string {
    FirstRowIn(rows, SourceIds(kept))
  }

  function SummaryRow(id: string, text: string, resumeFrom: string, recorded: bool): Row {
    Row(id, System, ContextSummary, PlainText(text), [], "", "", SummaryMetadata(recorded, resumeFrom))
  }

  method FindResumeFromMessageId(rows: seq<Row>, kept: seq<ChatMessage>) returns (id: string)
    ensures id == ResumePoint(rows, kept)
  {
    var keptIds: set<string> := {};
    for index := 0 to |kept|
      invariant keptIds == SourceIds(kept[..index])
    {
      assert kept[..index + 1] == kept[..index] + [kept[index]];
      if kept[index].sourceMessageId != "" {
        keptIds := keptIds + {kept[index].sourceMessageId};
      }
    }
    assert kept[..|kept|] == kept;
    for index := 0 to |rows|
      invariant FirstRowIn(rows[index..], keptIds) == FirstRowIn(rows, keptIds)
    {
      assert rows[index..][1..] == rows[index + 1..];
      if rows[index].id in keptIds {
        return rows[index].id;
      }
    }
    return "";
  }

  /** What the summarizer answers; `degraded` marks a text that does not stand in for its prefix. */
  datatype Summary = Summary(text: string, degraded: bool)

  /** `summary` is the summarizer's answer, absent when summarizing or saving it failed. */
  method CompressContext(
    tokens: ChatMessage -> nat, rows: seq<Row>, messages: seq<ChatMessage>, toolTokens: nat, threshold: int,
    limits: Limits, summary: Option<Summary>, newId: string)
    returns (compressed: seq<ChatMessage>, saved: Option<Row>, ghost cut: nat)
    requires |messages| >= 1 && limits.minKeepMessages >= 1
    ensures 1 <= cut <= |messages| && IsGreatestAcceptable(tokens, messages, limits, cut)
    ensures saved.Some? <==>
      toolTokens + TailTokens(tokens, messages, 0) > threshold && cut > 1 && summary.Some?
    ensures saved.None? ==> compressed == messages
    ensures saved.Some? ==>
      compressed == Compress(messages, cut, summary.value.text) &&
      saved.value == SummaryRow(newId, summary.value.text, ResumePoint(rows, messages[cut..]), !summary.value.degraded)
  {
    var total := toolTokens;
    for index := 0 to |messages|
      invariant total + TailTokens(tokens, messages, index) == toolTokens + TailTokens(tokens, messages, 0)
    {
      total := total + tokens(messages[index]);
    }
    var keepIndex := ComputeKeepBoundary(tokens, messages, limits);
    cut := keepIndex;
    if total <= threshold || keepIndex <= 1 || summary.None? {
      return messages, None, cut;
    }
    var resumeFrom := FindResumeFromMessageId(rows, messages[keepIndex..]);
    saved := Some(SummaryRow(newId, summary.value.text, resumeFrom, !summary.value.degraded));
    compressed := [messages[0], SystemMessage(SUMMARY_PREFIX + summary.value.text)] + messages[keepIndex..];
    compressed := DropUnpairedToolResults(compressed);
  }

  // ---------------------------------------------------------------------------------------
  // Whatever the cut, the request stays well-formed.
  // ---------------------------------------------------------------------------------------

  lemma {:induction false} CompressKeepsAnswered(messages: seq<ChatMessage>, cut: nat, summaryText: string)
    requires 1 <= cut <= |messages| && Answered(messages)
    requires messages[0].role == System && messages[0].toolCalls == []
    ensures Answered(Compress(messages, cut, summaryText))
  {
    var head := [messages[0], SystemMessage(SUMMARY_PREFIX + summaryText)];
    AnsweredSuffix(messages, cut);
    RepairSkipsSystems(head, messages[cut..], {});
    DropKeepsAnswered(messages[cut..], {});
    AnsweredBehindSystems(head, Drop(messages[cut..], {}));
  }

  lemma {:induction false} AnsweredBehindSystems(head: seq<ChatMessage>, messages: seq<ChatMessage>)
    requires AllSystem(head) && Answered(messages)
    ensures Answered(head + messages)
  {
    if head == [] {
      assert head + messages == messages;
    } else {
      assert (head + messages)[1..] == head[1..] + messages;
      assert forall i :: 0 <= i < |head| - 1 ==> head[1..][i] == head[i + 1];
      AnsweredBehindSystems(head[1..], messages);
    }
  }

  lemma {:induction false} BuildStartsWithSystem(systemPrompt: string, rows: seq<Row>, overlays: seq<string>)
    ensures |Build(systemPrompt, rows, overlays)| >= 1
    ensures Build(systemPrompt, rows, overlays)[0] == SystemMessage(systemPrompt)
  {
    AssembleIsHeadAndRepair(systemPrompt, rows, Base(systemPrompt, rows));
  }

  /** For every history: the prompt, truncated, cut anywhere and truncated again, makes a valid
      Anthropic request. */
  lemma {:induction false} EveryRequestIsWellFormed(
    systemPrompt: string, rows: seq<Row>, overlays: seq<string>,
    truncated: seq<ChatMessage>, cut: nat, summaryText: string, final: seq<ChatMessage>)
    requires SameButToolContent(Build(systemPrompt, rows, overlays), truncated)
    requires 1 <= cut <= |truncated|
    requires SameButToolContent(Compress(truncated, cut, summaryText), final)
    ensures Anthropic.WellFormedRequest(truncated)
    ensures Anthropic.WellFormedRequest(final)
    ensures Answered(truncated) && Answered(final)
  {
    BuiltPromptIsRepaired(systemPrompt, rows, overlays);
    BuildStartsWithSystem(systemPrompt, rows, overlays);
    RepliesIgnoreContent(Build(systemPrompt, rows, overlays), truncated);
    CompressKeepsAnswered(truncated, cut, summaryText);
    RepliesIgnoreContent(Compress(truncated, cut, summaryText), final);
    Anthropic.RequestIsWellFormed(truncated);
    Anthropic.RequestIsWellFormed(final);
  }

  // ---------------------------------------------------------------------------------------
  // The tail a safe cut keeps is the repair of a suffix of the rows.
  // ---------------------------------------------------------------------------------------

  lemma {:induction false} InsertTail(messages: seq<ChatMessage>, results: seq<ChatMessage>, p: nat)
    requires AllTools(results)
    requires p < |InsertBehindToolRun(messages, results)| && InsertBehindToolRun(messages, results)[p].role != Tool
    ensures |results| <= p && p - |results| < |messages|
    ensures InsertBehindToolRun(messages, results)[p..] == messages[p - |results|..]
  {
    InsertLength(messages, results);
    if messages != [] && messages[0].role == Tool {
      InsertTail(messages[1..], results, p - 1);
      assert InsertBehindToolRun(messages, results)[p..] == InsertBehindToolRun(messages[1..], results)[p - 1..];
      assert messages[1..][p - 1 - |results|..] == messages[p - |results|..];
    } else {
      assert (results + messages)[p].role != Tool;
      assert (results + messages)[p..] == messages[p - |results|..];
    }
  }

  lemma {:induction false} BehindFirst(first: ChatMessage, rest: seq<ChatMessage>, p: nat)
    requires 0 < p <= |rest|
    ensures ([first] + rest)[p..] == rest[p - 1..]
  {
  }

  lemma {:induction false} TailOfFix(messages: seq<ChatMessage>, p: nat) returns (q: nat)
    requires 0 < p < |Fix(messages)| && Fix(messages)[p].role != Tool
    ensures messages != [] && q < |Fix(messages[1..])| && Fix(messages[1..])[q] == Fix(messages)[p]
    ensures Fix(messages)[p..] == Fix(messages[1..])[q..]
  {
    var rest := Fix(messages[1..]);
    var results := if messages[0].role == Assistant then Missing(messages[0].toolCalls, Replies(rest) - {""}) else [];
    InsertNothing(rest);
    var inserted := InsertBehindToolRun(rest, results);
    assert Fix(messages) == [messages[0]] + inserted;
    assert Fix(messages)[p] == inserted[p - 1];
    InsertTail(rest, results, p - 1);
    q := p - 1 - |results|;
    BehindFirst(messages[0], inserted, p);
    assert inserted[p - 1..][0] == rest[q..][0];
  }

  lemma {:induction false} SplitFix(messages: seq<ChatMessage>, p: nat) returns (t: nat)
    requires p < |Fix(messages)| && Fix(messages)[p].role != Tool
    ensures t < |messages| && messages[t] == Fix(messages)[p]
    ensures Fix(messages)[p..] == Fix(messages[t..])
  {
    if p == 0 {
      t := 0;
      assert messages[0..] == messages;
    } else {
      var q := TailOfFix(messages, p);
      var u := SplitFix(messages[1..], q);
      t := u + 1;
      assert messages[1..][u..] == messages[t..];
    }
  }

  lemma {:induction false} SplitDrop(messages: seq<ChatMessage>, announced: set<string>, q: nat)
    returns (p: nat, later: set<string>)
    requires q < |Drop(messages, announced)|
    ensures p < |messages| && messages[p] == Drop(messages, announced)[q]
    ensures Drop(messages, announced)[q..] == Drop(messages[p..], later)
  {
    var announced' := announced + CallIds(messages[0]);
    if Orphan(messages[0], announced') {
      assert Drop(messages, announced) == Drop(messages[1..], announced');
      var u;
      u, later := SplitDrop(messages[1..], announced', q);
      p := u + 1;
      assert messages[1..][u..] == messages[p..];
    } else if q == 0 {
      p, later := 0, announced;
      assert messages[0..] == messages;
    } else {
      assert Drop(messages, announced)[1..] == Drop(messages[1..], announced');
      var u;
      u, later := SplitDrop(messages[1..], announced', q - 1);
      p := u + 1;
      assert messages[1..][u..] == messages[p..];
      assert Drop(messages, announced)[q..] == Drop(messages[1..], announced')[q - 1..];
    }
  }

  lemma {:induction false} DropTwice(messages: seq<ChatMessage>, first: set<string>, second: set<string>)
    requires OnlyAssistantsCall(messages) && second <= first
    ensures Drop(Drop(messages, first), second) == Drop(messages, second)
  {
    if messages != [] {
      assert forall i :: 0 <= i < |messages| - 1 ==> messages[1..][i] == messages[i + 1];
      var calls := CallIds(messages[0]);
      DropTwice(messages[1..], first + calls, second + calls);
      if Orphan(messages[0], first + calls) {
        assert calls == {} && first + calls == first && second + calls == second;
        assert Drop(messages, first) == Drop(messages[1..], first);
      } else {
        assert Drop(messages, first)[1..] == Drop(messages[1..], first + calls);
      }
    }
  }

  lemma {:induction false} RowOf(rows: seq<Row>, t: nat) returns (i: nat)
    requires t < |Transcript(rows)|
    ensures i < |rows| && !IsSummaryRow(rows[i]) && MessageOf(rows[i]) == Transcript(rows)[t]
    ensures Transcript(rows)[t..] == Transcript(rows[i..])
  {
    if IsSummaryRow(rows[0]) {
      var j := RowOf(rows[1..], t);
      i := j + 1;
      assert rows[1..][j..] == rows[i..];
      assert Transcript(rows) == Transcript(rows[1..]);
    } else if t == 0 {
      i := 0;
      assert rows[0..] == rows;
    } else {
      assert Transcript(rows)[1..] == Transcript(rows[1..]);
      var j := RowOf(rows[1..], t - 1);
      i := j + 1;
      assert rows[1..][j..] == rows[i..];
      assert Transcript(rows)[t..] == Transcript(rows[1..])[t - 1..];
    }
  }

  /** A tail of the repaired transcript that starts on no tool result belongs to a suffix of the rows. */
  lemma {:induction false} TailStartsAtRow(rows: seq<Row>, base: nat, q: nat) returns (i: nat)
    requires base <= |rows|
    requires q < |Repair(Transcript(rows[base..]))| && Repair(Transcript(rows[base..]))[q].role != Tool
    ensures base <= i < |rows| && !IsSummaryRow(rows[i])
    ensures Repair(Transcript(rows[base..]))[q] == MessageOf(rows[i])
    ensures exists later :: Repair(Transcript(rows[base..]))[q..] == Drop(Fix(Transcript(rows[i..])), later)
    ensures Drop(Repair(Transcript(rows[base..]))[q..], {}) == Repair(Transcript(rows[i..]))
  {
    var transcript := Transcript(rows[base..]);
    var p, later := SplitDrop(Fix(transcript), {}, q);
    var t := SplitFix(transcript, p);
    var j := RowOf(rows[base..], t);
    i := base + j;
    assert rows[base..][j..] == rows[i..];
    TranscriptsOnlyAssistantsCall(rows[i..]);
    FixAddsOnlySynthetic(Transcript(rows[i..]));
    SyntheticLeavesNonTools(Transcript(rows[i..]), Fix(Transcript(rows[i..])));
    DropTwice(Fix(Transcript(rows[i..])), later, {});
  }
}
