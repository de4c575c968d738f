/** A run of appends and compactions, with the ledger of the rows each summary stands for. */
module SummaryLedger {
  import opened Messages
  import opened PromptRepair
  import opened RepairNormalForm
  import opened KeepBoundary
  import opened PromptAssembly
  import opened RenderedPrompt
  import opened Compaction
  import opened Coverage

  /** `behind` holds the rows the last summary stands for, directly or through the header it
      summarized; `unpaired` the tool results that were dropped because no call announced them, and
      `starts` where the prompts started that dropped them. */
  datatype Ledger = Ledger(rows: seq<Row>, behind: set<string>, unpaired: set<string>, starts: set<nat>)

  /** Row `j` is a tool result that no row from `base` on announces. */
  ghost predicate UnpairedSince(rows: seq<Row>, base: nat, j: nat) {
    base <= j < |rows| && rows[j].role == Tool && rows[j].toolCallId != "" &&
    forall n :: base <= n < j ==> rows[j].toolCallId !in OfferedIds(rows[n])
  }

  datatype Event =
    | Append(row: Row)
    /** `prompt` is the built prompt after any truncation; `concurrent` are the rows saved between
        reading the history and saving the summary. */
    | Compact(systemPrompt: string, overlays: seq<string>, prompt: seq<ChatMessage>, cut: nat,
              concurrent: seq<Row>, id: string, text: string)

  function Kept(e: Event): seq<ChatMessage>
    requires e.Compact? && e.cut <= |e.prompt|
  {
    e.prompt[e.cut..]
  }

  /** The header of the previous summary is among the messages being summarized. */
  predicate SummarizesHeader(rows: seq<Row>, prefix: seq<ChatMessage>) {
    LastSummary(rows) >= 0 && SystemMessage(SUMMARY_PREFIX + SummaryText(rows)) in prefix
  }

  ghost function Next(l: Ledger, e: Event): Ledger
    requires e.Compact? ==> e.cut <= |e.prompt|
  {
    match e
    case Append(row) => l.(rows := l.rows + [row])
    case Compact(systemPrompt, _, prompt, cut, concurrent, id, text) =>
      var base := Base(systemPrompt, l.rows);
      Ledger(
        After(l.rows, concurrent, SummaryRow(id, text, ResumePoint(l.rows, Kept(e)), true), []),
        SourceIds(prompt[..cut]) + (if SummarizesHeader(l.rows, prompt[..cut]) then l.behind else {}),
        l.unpaired + (set j | base <= j < |l.rows| && UnpairedSince(l.rows, base, j) :: l.rows[j].id),
        l.starts + {base})
  }

  /** Rows get fresh ids. A compaction cuts the prompt safely and is not degraded, and when it keeps
      no row at all, no row was saved while it ran. */
  ghost predicate Allowed(l: Ledger, e: Event) {
    match e
    case Append(row) => !IsSummaryRow(row) && WellIded(l.rows + [row])
    case Compact(systemPrompt, overlays, prompt, cut, concurrent, id, text) =>
      SameButToolContent(Build(systemPrompt, l.rows, overlays), prompt) && IsCut(prompt, cut) &&
      text != "" && NoSummaries(concurrent) &&
      WellIded(After(l.rows, concurrent, SummaryRow(id, text, "", true), [])) &&
      (SourceIds(prompt[cut..]) != {} || concurrent == [])
  }

  /** The row is a tool result that a prompt starting at one of `starts` did not announce. */
  ghost predicate IsUnpairedRow(rows: seq<Row>, starts: set<nat>, id: string) {
    exists base: nat, j: nat :: base in starts && UnpairedSince(rows, base, j) && rows[j].id == id
  }

  /** Every row before the resume point is accounted for. */
  ghost predicate Sound(l: Ledger) {
    WellIded(l.rows) &&
    (LastSummary(l.rows) >= 0 ==>
      SummaryText(l.rows) != "" && RecordedResume(l.rows, LastSummary(l.rows)).Some?) &&
    (forall j :: 0 <= j < StartIndex(l.rows) && !IsSummaryRow(l.rows[j]) ==>
      l.rows[j].id in l.behind || l.rows[j].id in l.unpaired) &&
    (forall id :: id in l.unpaired ==> IsUnpairedRow(l.rows, l.starts, id))
  }

  // ---------------------------------------------------------------------------------------
  // A row's message survives the repairs unless it is an unpaired result.
  // ---------------------------------------------------------------------------------------

  lemma {:induction false} SyntheticKeepMembers(
    results: seq<ChatMessage>, messages: seq<ChatMessage>, announced: set<string>, message: ChatMessage)
    requires AllSynthetic(results) && message in Drop(messages, announced)
    ensures message in Drop(results + messages, announced)
  {
    if results == [] {
      assert results + messages == messages;
    } else {
      assert (results + messages)[1..] == results[1..] + messages;
      assert CallIds(results[0]) == {} && announced + CallIds(results[0]) == announced;
      assert forall i :: 0 <= i < |results| - 1 ==> results[1..][i] == results[i + 1];
      SyntheticKeepMembers(results[1..], messages, announced, message);
    }
  }

  lemma {:induction false} InsertKeepsMembers(
    messages: seq<ChatMessage>, results: seq<ChatMessage>, announced: set<string>, message: ChatMessage)
    requires AllSynthetic(results) && message in Drop(messages, announced)
    ensures message in Drop(InsertBehindToolRun(messages, results), announced)
  {
    if messages != [] && messages[0].role == Tool {
      var announced' := announced + CallIds(messages[0]);
      var inserted := InsertBehindToolRun(messages, results);
      assert inserted[1..] == InsertBehindToolRun(messages[1..], results);
      if message in Drop(messages[1..], announced') {
        InsertKeepsMembers(messages[1..], results, announced', message);
      }
    } else {
      SyntheticKeepMembers(results, messages, announced, message);
    }
  }

  ghost predicate Unannounced(rows: seq<Row>, announced: set<string>, j: nat)
    requires j < |rows|
  {
    rows[j].role == Tool && rows[j].toolCallId != "" && rows[j].toolCallId !in announced &&
    forall n :: 0 <= n < j ==> rows[j].toolCallId !in OfferedIds(rows[n])
  }

  lemma {:induction false} RowSurvives(rows: seq<Row>, announced: set<string>, j: nat)
    requires j < |rows| && !IsSummaryRow(rows[j])
    ensures MessageOf(rows[j]) in Drop(Fix(Transcript(rows)), announced) || Unannounced(rows, announced, j)
  {
    if IsSummaryRow(rows[0]) {
      assert Transcript(rows) == Transcript(rows[1..]);
      RowSurvives(rows[1..], announced, j - 1);
      if Unannounced(rows[1..], announced, j - 1) { UnannouncedBehind(rows, announced, announced, j); }
    } else {
      var first, rest := MessageOf(rows[0]), Fix(Transcript(rows[1..]));
      var results := if first.role == Assistant then Missing(first.toolCalls, Replies(rest) - {""}) else [];
      InsertNothing(rest);
      if first.role == Assistant { MissingIsSynthetic(first.toolCalls, Replies(rest) - {""}); }
      assert Transcript(rows)[1..] == Transcript(rows[1..]);
      assert Fix(Transcript(rows)) == [first] + InsertBehindToolRun(rest, results);
      var announced' := announced + CallIds(first);
      MessageSaysItsRow(first, rows[0]);
      if j > 0 {
        RowSurvives(rows[1..], announced', j - 1);
        if Unannounced(rows[1..], announced', j - 1) {
          UnannouncedBehind(rows, announced, announced', j);
        } else {
          InsertKeepsMembers(rest, results, announced', MessageOf(rows[j]));
        }
      }
    }
  }

  lemma {:induction false} UnannouncedBehind(rows: seq<Row>, announced: set<string>, announced': set<string>, j: nat)
    requires 0 < j < |rows| && Unannounced(rows[1..], announced', j - 1)
    requires announced <= announced'
    requires OfferedIds(rows[0]) <= announced'
    ensures Unannounced(rows, announced, j)
  {
    forall n | 0 <= n < j ensures rows[j].toolCallId !in OfferedIds(rows[n]) {
      if n > 0 { assert rows[n] == rows[1..][n - 1]; }
    }
  }

  lemma {:induction false} InsertAddsOnlySyntheticMembers(
    messages: seq<ChatMessage>, results: seq<ChatMessage>, announced: set<string>, message: ChatMessage)
    requires AllSynthetic(results) && !IsSynthetic(message)
    requires message in Drop(InsertBehindToolRun(messages, results), announced)
    ensures message in Drop(messages, announced)
    decreases |messages|, |results|
  {
    if messages != [] && messages[0].role == Tool {
      var announced' := announced + CallIds(messages[0]);
      assert InsertBehindToolRun(messages, results)[1..] == InsertBehindToolRun(messages[1..], results);
      if message in Drop(InsertBehindToolRun(messages[1..], results), announced') {
        InsertAddsOnlySyntheticMembers(messages[1..], results, announced', message);
      }
    } else if results != [] {
      assert (results + messages)[1..] == results[1..] + messages;
      assert CallIds(results[0]) == {} && announced + CallIds(results[0]) == announced;
      assert InsertBehindToolRun(messages, results[1..]) == results[1..] + messages;
      assert message in Drop(results[1..] + messages, announced);
      InsertAddsOnlySyntheticMembers(messages, results[1..], announced, message);
    } else {
      assert results + messages == messages;
    }
  }

  /** Only row `j` becomes the message of row `j`. */
  lemma {:induction false} MessageComesFromItsRow(
    rows: seq<Row>, start: nat, announced: set<string>, j: nat)
    requires WellIded(rows) && j < start <= |rows|
    ensures MessageOf(rows[j]) !in Drop(Fix(Transcript(rows[start..])), announced)
  {
    forall i: nat | start <= i && i < |rows| ensures MessageOf(rows[i]) != MessageOf(rows[j]) {
      assert rows[i].id != rows[j].id;
    }
    if MessageOf(rows[j]) in Drop(Fix(Transcript(rows[start..])), announced) {
      RepairedMembers(rows, start, announced, MessageOf(rows[j]));
    }
  }

  lemma {:induction false} UnannouncedIsDropped(rows: seq<Row>, announced: set<string>, j: nat)
    requires WellIded(rows) && j < |rows| && !IsSummaryRow(rows[j]) && Unannounced(rows, announced, j)
    ensures MessageOf(rows[j]) !in Drop(Fix(Transcript(rows)), announced)
  {
    var message := MessageOf(rows[j]);
    if IsSummaryRow(rows[0]) {
      assert Transcript(rows) == Transcript(rows[1..]);
      UnannouncedFirst(rows, announced, announced, j);
      UnannouncedIsDropped(rows[1..], announced, j - 1);
    } else {
      var first, rest := MessageOf(rows[0]), Fix(Transcript(rows[1..]));
      var results := if first.role == Assistant then Missing(first.toolCalls, Replies(rest) - {""}) else [];
      InsertNothing(rest);
      if first.role == Assistant { MissingIsSynthetic(first.toolCalls, Replies(rest) - {""}); }
      assert Transcript(rows)[1..] == Transcript(rows[1..]);
      var inserted := InsertBehindToolRun(rest, results);
      assert Fix(Transcript(rows)) == [first] + inserted;
      assert ([first] + inserted)[1..] == inserted;
      var announced' := announced + CallIds(first);
      MessageSaysItsRow(first, rows[0]);
      if j == 0 {
        assert CallIds(first) == {} && announced' == announced;
        MessageComesFromItsRow(rows, 1, announced', 0);
      } else {
        assert message != first;
        UnannouncedFirst(rows, announced, announced', j);
        UnannouncedIsDropped(rows[1..], announced', j - 1);
      }
      if message in Drop(inserted, announced') {
        InsertAddsOnlySyntheticMembers(rest, results, announced', message);
      }
    }
  }

  lemma {:induction false} UnannouncedFirst(rows: seq<Row>, announced: set<string>, announced': set<string>, j: nat)
    requires 0 < j < |rows| && Unannounced(rows, announced, j)
    requires announced' == announced + OfferedIds(rows[0])
    ensures Unannounced(rows[1..], announced', j - 1)
  {
  }

  lemma {:induction false} UnannouncedIsUnpaired(rows: seq<Row>, base: nat, j: nat)
    requires base <= j < |rows|
    ensures Unannounced(rows[base..], {}, j - base) <==> UnpairedSince(rows, base, j)
  {
    if Unannounced(rows[base..], {}, j - base) {
      forall n | base <= n < j ensures rows[j].toolCallId !in OfferedIds(rows[n]) {
        assert rows[n] == rows[base..][n - base];
      }
    }
  }

  /** From the start of the prompt on, a row is in the prompt if and only if it is no result that the rows
      from there on leave unannounced. */
  lemma {:induction false} RowIsInPromptIffPaired(
    systemPrompt: string, rows: seq<Row>, overlays: seq<string>, j: nat)
    requires WellIded(rows) && Base(systemPrompt, rows) <= j < |rows| && !IsSummaryRow(rows[j])
    ensures Holds(Build(systemPrompt, rows, overlays), rows[j]) <==>
            !UnpairedSince(rows, Base(systemPrompt, rows), j)
  {
    HoldsMeansContains(Build(systemPrompt, rows, overlays), rows[j]);
    RowIsInBuiltIffRepaired(systemPrompt, rows, overlays, j);
    RowIsRepairedIffPaired(rows, Base(systemPrompt, rows), j);
  }

  lemma {:induction false} RowIsRepairedIffPaired(rows: seq<Row>, base: nat, j: nat)
    requires WellIded(rows) && base <= j < |rows| && !IsSummaryRow(rows[j])
    ensures MessageOf(rows[j]) in Repair(Transcript(rows[base..])) <==> !UnpairedSince(rows, base, j)
  {
    var suffix := rows[base..];
    assert suffix[j - base] == rows[j];
    UnannouncedIsUnpaired(rows, base, j);
    RowSurvives(suffix, {}, j - base);
    if UnpairedSince(rows, base, j) {
      SuffixIsWellIded(rows, base);
      UnannouncedIsDropped(suffix, {}, j - base);
    }
  }

  lemma {:induction false} SuffixIsWellIded(rows: seq<Row>, base: nat)
    requires WellIded(rows) && base <= |rows|
    ensures WellIded(rows[base..])
  {
  }

  lemma {:induction false} RowIsInBuiltIffRepaired(
    systemPrompt: string, rows: seq<Row>, overlays: seq<string>, j: nat)
    requires WellIded(rows) && j < |rows|
    ensures MessageOf(rows[j]) in Build(systemPrompt, rows, overlays) <==>
            MessageOf(rows[j]) in Repair(Transcript(rows[Base(systemPrompt, rows)..]))
  {
    BuildParts(systemPrompt, rows, overlays);
    OverlaysAreSystem(overlays);
    var head, middle := Head(systemPrompt, SummaryText(rows)), Repair(Transcript(rows[Base(systemPrompt, rows)..]));
    var message := MessageOf(rows[j]);
    assert message.sourceMessageId != "";
    assert message !in head && message !in Overlays(overlays);
  }

  // ---------------------------------------------------------------------------------------
  // Truncation does not move a cut.
  // ---------------------------------------------------------------------------------------

  lemma {:induction false} TruncationKeepsCut(built: seq<ChatMessage>, prompt: seq<ChatMessage>, cut: nat)
    requires SameButToolContent(built, prompt) && IsCut(prompt, cut)
    ensures IsCut(built, cut)
    ensures SourceIds(built[cut..]) == SourceIds(prompt[cut..])
    ensures SourceIds(built[..cut]) == SourceIds(prompt[..cut])
    ensures built[1].role == System ==> prompt[1] == built[1]
  {
    assert prompt[1..][cut - 1] == prompt[cut] && built[1..][cut - 1] == built[cut];
    assert prompt[1..][cut - 2] == prompt[cut - 1] && built[1..][cut - 2] == built[cut - 1];
    assert SameButToolContent(built[cut..], prompt[cut..]) by {
      assert forall i :: 0 <= i < |built[cut..]| ==>
        built[cut..][i] == built[cut + i] && prompt[cut..][i] == prompt[cut + i];
    }
    assert SameButToolContent(built[..cut], prompt[..cut]);
  }

  // ---------------------------------------------------------------------------------------
  // Every step keeps the ledger sound.
  // ---------------------------------------------------------------------------------------

  lemma {:induction false} FirstWithIdExtends(rows: seq<Row>, row: Row, id: string)
    ensures FirstWithId(rows, id).Some? ==> FirstWithId(rows + [row], id) == FirstWithId(rows, id)
  {
    if rows != [] {
      assert (rows + [row])[1..] == rows[1..] + [row];
      FirstWithIdExtends(rows[1..], row, id);
    }
  }

  lemma {:induction false} UnpairedStays(rows: seq<Row>, more: seq<Row>, starts: set<nat>, id: string)
    requires IsUnpairedRow(rows, starts, id)
    ensures IsUnpairedRow(rows + more, starts, id)
  {
    var base: nat, j: nat :| base in starts && UnpairedSince(rows, base, j) && rows[j].id == id;
    assert forall n :: 0 <= n <= j ==> (rows + more)[n] == rows[n];
    assert UnpairedSince(rows + more, base, j);
  }

  lemma {:induction false} AppendKeepsStart(rows: seq<Row>, row: Row)
    requires !IsSummaryRow(row)
    requires LastSummary(rows) >= 0 ==> RecordedResume(rows, LastSummary(rows)).Some?
    ensures LastSummary(rows + [row]) == LastSummary(rows)
    ensures StartIndex(rows + [row]) == StartIndex(rows)
    ensures SummaryText(rows + [row]) == SummaryText(rows)
    ensures LastSummary(rows) >= 0 ==> RecordedResume(rows + [row], LastSummary(rows)).Some?
  {
    LastSummaryBefore(rows, [row]);
    var summary := LastSummary(rows);
    if summary >= 0 {
      assert (rows + [row])[summary] == rows[summary];
      FirstWithIdExtends(rows, row, rows[summary].metadata.resumeFromMessageId);
    }
  }

  lemma {:induction false} AppendIsSound(l: Ledger, row: Row)
    requires Sound(l) && Allowed(l, Append(row))
    ensures Sound(Next(l, Append(row)))
  {
    AppendKeepsStart(l.rows, row);
    assert forall j :: 0 <= j < StartIndex(l.rows) ==> (l.rows + [row])[j] == l.rows[j];
    forall id | id in l.unpaired ensures IsUnpairedRow(l.rows + [row], l.starts, id) {
      UnpairedStays(l.rows, [row], l.starts, id);
    }
  }

  /** The rows between the start of the prompt and the kept tail are in the summarized prefix. */
  lemma {:induction false} PrefixCovers(
    systemPrompt: string, rows: seq<Row>, overlays: seq<string>, cut: nat, i: nat, j: nat)
    requires WellIded(rows) && IsCut(Build(systemPrompt, rows, overlays), cut)
    requires var kept := Build(systemPrompt, rows, overlays)[cut..];
      SourceIds(kept) == {} || ResumesAt(rows, overlays, kept, i)
    requires Base(systemPrompt, rows) <= j < |rows| && !IsSummaryRow(rows[j])
    requires SourceIds(Build(systemPrompt, rows, overlays)[cut..]) != {} ==> j < i
    ensures rows[j].id in SourceIds(Build(systemPrompt, rows, overlays)[..cut]) ||
            UnpairedSince(rows, Base(systemPrompt, rows), j)
  {
    var prompt := Build(systemPrompt, rows, overlays);
    RowIsInPromptIffPaired(systemPrompt, rows, overlays, j);
    var message, kept := MessageOf(rows[j]), prompt[cut..];
    HoldsMeansContains(prompt, rows[j]);
    assert message.sourceMessageId !in SourceIds(kept);
    assert message !in kept;
    assert prompt == prompt[..cut] + kept;
  }

  lemma {:induction false} HeaderIsSummarized(
    systemPrompt: string, rows: seq<Row>, overlays: seq<string>, prompt: seq<ChatMessage>, cut: nat)
    requires SameButToolContent(Build(systemPrompt, rows, overlays), prompt) && IsCut(prompt, cut)
    requires LastSummary(rows) >= 0 && SummaryText(rows) != ""
    ensures SummarizesHeader(rows, prompt[..cut])
  {
    var built := Build(systemPrompt, rows, overlays);
    BuildParts(systemPrompt, rows, overlays);
    TruncationKeepsCut(built, prompt, cut);
    assert built[1] == SystemMessage(SUMMARY_PREFIX + SummaryText(rows));
    assert prompt[..cut][1] == built[1];
  }

  /** The kept tail of a compaction is that of the built prompt, and starts at row `i` if it holds any. */
  ghost predicate KeepsFrom(l: Ledger, e: Event, i: nat)
    requires e.Compact? && e.cut <= |e.prompt|
  {
    var built := Build(e.systemPrompt, l.rows, e.overlays);
    SameButToolContent(built, e.prompt) && IsCut(built, e.cut) && SourceIds(built[e.cut..]) == SourceIds(Kept(e)) &&
    (SourceIds(Kept(e)) != {} ==> ResumesAt(l.rows, e.overlays, built[e.cut..], i))
  }

  lemma {:induction false} KeptTail(l: Ledger, e: Event) returns (i: nat)
    requires WellIded(l.rows) && e.Compact? && Allowed(l, e)
    ensures KeepsFrom(l, e, i)
  {
    var built := Build(e.systemPrompt, l.rows, e.overlays);
    TruncationKeepsCut(built, e.prompt, e.cut);
    i := CutKeepsRowSuffix(e.systemPrompt, l.rows, e.overlays, e.cut);
  }

  lemma {:induction false} ResumesFromTail(l: Ledger, e: Event, i: nat)
    requires WellIded(l.rows) && e.Compact? && Allowed(l, e) && KeepsFrom(l, e, i)
    ensures var resumeFrom := ResumePoint(l.rows, Kept(e));
      if SourceIds(Kept(e)) == {} then resumeFrom == ""
      else (i < |l.rows| && resumeFrom == l.rows[i].id && resumeFrom != "" &&
            forall j :: 0 <= j < i ==> l.rows[j].id != resumeFrom)
  {
    if SourceIds(Kept(e)) == {} {
      NoRowIn(l.rows);
    } else {
      ResumePointIs(l.rows, e.overlays, Build(e.systemPrompt, l.rows, e.overlays)[e.cut..], i);
    }
  }

  lemma {:induction false} NextStart(l: Ledger, e: Event) returns (i: nat)
    requires Sound(l) && e.Compact? && Allowed(l, e)
    ensures var rows := Next(l, e).rows;
      StartIndex(rows) == (if SourceIds(Kept(e)) == {} then |l.rows| + 1 else i) &&
      LastSummary(rows) >= 0 && SummaryText(rows) != "" && RecordedResume(rows, LastSummary(rows)).Some?
    ensures KeepsFrom(l, e, i)
  {
    i := KeptTail(l, e);
    ResumesFromTail(l, e, i);
    StartAfterSummary(l.rows, e.concurrent, e.id, e.text, ResumePoint(l.rows, Kept(e)), [], i);
  }

  /** Row `j` before the new resume point is summarized now, was before, or is unpaired. */
  lemma {:induction false} CompactCovers(l: Ledger, e: Event, i: nat, j: nat)
    requires Sound(l) && e.Compact? && Allowed(l, e)
    requires var built := Build(e.systemPrompt, l.rows, e.overlays);
      IsCut(built, e.cut) && (SourceIds(built[e.cut..]) == {} || ResumesAt(l.rows, e.overlays, built[e.cut..], i))
    requires j < |l.rows| && !IsSummaryRow(l.rows[j])
    requires SourceIds(Kept(e)) != {} ==> j < i
    ensures l.rows[j].id in Next(l, e).behind || l.rows[j].id in Next(l, e).unpaired
  {
    var base := Base(e.systemPrompt, l.rows);
    TruncationKeepsCut(Build(e.systemPrompt, l.rows, e.overlays), e.prompt, e.cut);
    if j >= base {
      PrefixCovers(e.systemPrompt, l.rows, e.overlays, e.cut, i, j);
    } else {
      assert LastSummary(l.rows) >= 0;
      HeaderIsSummarized(e.systemPrompt, l.rows, e.overlays, e.prompt, e.cut);
    }
  }

  lemma {:induction false} CompactMarksUnpaired(l: Ledger, e: Event, id: string)
    requires Sound(l) && e.Compact? && Allowed(l, e) && id in Next(l, e).unpaired
    ensures IsUnpairedRow(Next(l, e).rows, Next(l, e).starts, id)
  {
    var row := SummaryRow(e.id, e.text, ResumePoint(l.rows, Kept(e)), true);
    MarkedIsUnpaired(l, e, id);
    AfterIsBehind(l.rows, e.concurrent, row);
    UnpairedStays(l.rows, e.concurrent + [row], Next(l, e).starts, id);
  }

  lemma {:induction false} AfterIsBehind(rows: seq<Row>, concurrent: seq<Row>, row: Row)
    ensures After(rows, concurrent, row, []) == rows + (concurrent + [row])
  {
  }

  lemma {:induction false} MarkedIsUnpaired(l: Ledger, e: Event, id: string)
    requires e.Compact? && e.cut <= |e.prompt| && id in Next(l, e).unpaired
    requires id in l.unpaired ==> IsUnpairedRow(l.rows, l.starts, id)
    ensures IsUnpairedRow(l.rows, Next(l, e).starts, id)
  {
    var base := Base(e.systemPrompt, l.rows);
    if id in l.unpaired {
      var start: nat, j: nat :| start in l.starts && UnpairedSince(l.rows, start, j) && l.rows[j].id == id;
      assert start in Next(l, e).starts;
    } else {
      var j :| base <= j < |l.rows| && UnpairedSince(l.rows, base, j) && l.rows[j].id == id;
      assert base in Next(l, e).starts;
    }
  }

  lemma {:induction false} CompactIsSound(l: Ledger, e: Event)
    requires Sound(l) && e.Compact? && Allowed(l, e)
    ensures Sound(Next(l, e))
  {
    var next := Next(l, e);
    var i := NextStart(l, e);
    SameIds(l.rows, e);
    forall j | 0 <= j < StartIndex(next.rows) && !IsSummaryRow(next.rows[j])
      ensures next.rows[j].id in next.behind || next.rows[j].id in next.unpaired
    {
      assert j <= |l.rows| && (j < |l.rows| ==> next.rows[j] == l.rows[j]);
      assert IsSummaryRow(next.rows[|l.rows| + |e.concurrent|]);
      CompactCovers(l, e, i, j);
    }
    forall id | id in next.unpaired ensures IsUnpairedRow(next.rows, next.starts, id) {
      CompactMarksUnpaired(l, e, id);
    }
  }

  lemma {:induction false} SameIds(rows: seq<Row>, e: Event)
    requires e.Compact? && e.cut <= |e.prompt|
    requires WellIded(After(rows, e.concurrent, SummaryRow(e.id, e.text, "", true), []))
    ensures WellIded(After(rows, e.concurrent, SummaryRow(e.id, e.text, ResumePoint(rows, Kept(e)), true), []))
  {
    var left := After(rows, e.concurrent, SummaryRow(e.id, e.text, "", true), []);
    var right := After(rows, e.concurrent, SummaryRow(e.id, e.text, ResumePoint(rows, Kept(e)), true), []);
    assert |left| == |right| && forall i :: 0 <= i < |left| ==> left[i].id == right[i].id;
  }

  ghost predicate AllowedRun(l: Ledger, events: seq<Event>)
    decreases |events|
  {
    events == [] || (Allowed(l, events[0]) && AllowedRun(Next(l, events[0]), events[1..]))
  }

  ghost function Run(l: Ledger, events: seq<Event>): Ledger
    requires AllowedRun(l, events)
    decreases |events|
  {
    if events == [] then l else Run(Next(l, events[0]), events[1..])
  }

  lemma {:induction false} RunIsSound(l: Ledger, events: seq<Event>)
    requires Sound(l) && AllowedRun(l, events)
    ensures Sound(Run(l, events))
    decreases |events|
  {
    if events != [] {
      if events[0].Append? { AppendIsSound(l, events[0].row); } else { CompactIsSound(l, events[0]); }
      RunIsSound(Next(l, events[0]), events[1..]);
    }
  }

  function Unsummarized(rows: seq<Row>): Ledger {
    Ledger(rows, {}, {}, {})
  }

  /** The row was dropped because the prompt being built, or one that a compaction of the run built before,
      does not announce it: no row between the start of that prompt and the row does. */
  ghost predicate Unanswerable(l: Ledger, systemPrompt: string, j: nat) {
    exists start: nat :: (start in l.starts || start == Base(systemPrompt, l.rows)) && UnpairedSince(l.rows, start, j)
  }

  /** Over any number of compactions every row is behind the chain of summaries, verbatim in the next
      prompt, or a tool result that the prompt it was dropped from did not announce. */
  lemma {:induction false} NothingIsLost(
    rows: seq<Row>, events: seq<Event>, systemPrompt: string, overlays: seq<string>, j: nat)
    requires WellIded(rows) && LastSummary(rows) < 0 && AllowedRun(Unsummarized(rows), events)
    requires j < |Run(Unsummarized(rows), events).rows|
    requires !IsSummaryRow(Run(Unsummarized(rows), events).rows[j])
    ensures var l := Run(Unsummarized(rows), events);
      l.rows[j].id in l.behind ||
      Holds(Build(systemPrompt, l.rows, overlays), l.rows[j]) ||
      Unanswerable(l, systemPrompt, j)
  {
    RunIsSound(Unsummarized(rows), events);
    var l := Run(Unsummarized(rows), events);
    if j >= Base(systemPrompt, l.rows) {
      RowIsInPromptIffPaired(systemPrompt, l.rows, overlays, j);
    } else if l.rows[j].id in l.unpaired {
      var start: nat, k: nat :| start in l.starts && UnpairedSince(l.rows, start, k) && l.rows[k].id == l.rows[j].id;
      assert k == j;
    }
  }

  // ---------------------------------------------------------------------------------------
  // Histories in the persisted shape lose nothing at all.
  // ---------------------------------------------------------------------------------------

  ghost predicate Announces(rows: seq<Row>, n: nat, id: string) {
    n < |rows| && id in OfferedIds(rows[n])
  }

  /** The calls that results behind `row` may answer. */
  function OpenBehind(row: Row, open: set<string>): set<string> {
    if IsSummaryRow(row) || row.role == Tool then open
    else if row.role == Assistant then OfferedIds(row)
    else {}
  }

  lemma {:induction false} ShapedBehindFirst(rows: seq<Row>, open: set<string>)
    requires rows != [] && Shaped(Transcript(rows), open)
    ensures Shaped(Transcript(rows[1..]), OpenBehind(rows[0], open))
    ensures !IsSummaryRow(rows[0]) && rows[0].role == Tool && rows[0].toolCallId != "" ==> rows[0].toolCallId in open
  {
    if IsSummaryRow(rows[0]) {
      assert Transcript(rows) == Transcript(rows[1..]);
    } else {
      MessageSaysItsRow(MessageOf(rows[0]), rows[0]);
      assert Transcript(rows)[0] == MessageOf(rows[0]) && Transcript(rows)[1..] == Transcript(rows[1..]);
    }
  }

  lemma {:induction false} AnnouncesBehind(rows: seq<Row>, base: nat, n: nat, id: string)
    requires base <= |rows| && Announces(rows[base..], n, id)
    ensures Announces(rows, base + n, id)
  {
  }

  lemma {:induction false} ShapedRowIsAnnounced(rows: seq<Row>, open: set<string>, j: nat) returns (n: nat)
    requires Shaped(Transcript(rows), open) && j < |rows| && !IsSummaryRow(rows[j])
    requires rows[j].role == Tool && rows[j].toolCallId != "" && rows[j].toolCallId !in open
    ensures n < j && Announces(rows, n, rows[j].toolCallId)
  {
    ShapedBehindFirst(rows, open);
    assert j > 0;
    n := 0;
    if rows[j].toolCallId !in OpenBehind(rows[0], open) {
      var m := ShapedRowIsAnnounced(rows[1..], OpenBehind(rows[0], open), j - 1);
      n := m + 1;
      AnnouncesBehind(rows, 1, m, rows[j].toolCallId);
    }
  }

  lemma {:induction false} ShapedRowsSuffix(rows: seq<Row>, open: set<string>, base: nat)
    requires Shaped(Transcript(rows), open)
    requires base < |rows| && !IsSummaryRow(rows[base]) && rows[base].role != Tool
    ensures Shaped(Transcript(rows[base..]), {})
  {
    if base > 0 {
      assert rows[1..][base - 1..] == rows[base..];
      ShapedBehindFirst(rows, open);
      ShapedRowsSuffix(rows[1..], OpenBehind(rows[0], open), base - 1);
    } else {
      assert rows[0..] == rows;
      assert Transcript(rows)[0] == MessageOf(rows[0]);
    }
  }

  ghost predicate AnchoredAt(rows: seq<Row>, base: nat) {
    base == 0 || (base < |rows| && !IsSummaryRow(rows[base]) && rows[base].role != Tool)
  }

  lemma {:induction false} AnchoredSuffixIsShaped(rows: seq<Row>, base: nat)
    requires Shaped(Transcript(rows), {}) && AnchoredAt(rows, base)
    ensures Shaped(Transcript(rows[base..]), {})
  {
    if base == 0 { assert rows[0..] == rows; } else { ShapedRowsSuffix(rows, {}, base); }
  }

  lemma {:induction false} AnnouncerSince(rows: seq<Row>, base: nat, j: nat) returns (n: nat)
    requires Shaped(Transcript(rows), {}) && AnchoredAt(rows, base)
    requires base <= j < |rows| && !IsSummaryRow(rows[j]) && rows[j].role == Tool && rows[j].toolCallId != ""
    ensures base <= n < j && Announces(rows, n, rows[j].toolCallId)
  {
    AnchoredSuffixIsShaped(rows, base);
    var suffix := rows[base..];
    assert suffix[j - base] == rows[j];
    var m := ShapedRowIsAnnounced(suffix, {}, j - base);
    AnnouncesBehind(rows, base, m, rows[j].toolCallId);
    n := base + m;
  }

  lemma {:induction false} NoneUnpairedSince(rows: seq<Row>, base: nat, j: nat)
    requires Shaped(Transcript(rows), {}) && AnchoredAt(rows, base)
    requires base <= j < |rows| && !IsSummaryRow(rows[j])
    ensures !UnpairedSince(rows, base, j)
  {
    if rows[j].role == Tool && rows[j].toolCallId != "" {
      var n := AnnouncerSince(rows, base, j);
    }
  }

  ghost predicate SummariesAreSystem(rows: seq<Row>) {
    forall j :: 0 <= j < |rows| && IsSummaryRow(rows[j]) ==> rows[j].role == System
  }

  /** Every tool result sits in the run behind its announcing assistant, each compaction keeps a row. */
  ghost predicate KeepsTurns(l: Ledger, e: Event)
    requires e.Compact? ==> e.cut <= |e.prompt|
  {
    Shaped(Transcript(l.rows), {}) && SummariesAreSystem(l.rows) && (e.Compact? ==> SourceIds(Kept(e)) != {})
  }

  ghost predicate KeepsTurnsRun(l: Ledger, events: seq<Event>)
    requires AllowedRun(l, events)
    decreases |events|
  {
    events == [] || (KeepsTurns(l, events[0]) && KeepsTurnsRun(Next(l, events[0]), events[1..]))
  }

  lemma {:induction false} NoRowUnpairedSince(rows: seq<Row>, base: nat)
    requires Shaped(Transcript(rows), {}) && AnchoredAt(rows, base) && base <= |rows|
    requires SummariesAreSystem(rows)
    ensures forall j :: base <= j < |rows| ==> !UnpairedSince(rows, base, j)
  {
    forall j | base <= j < |rows| ensures !UnpairedSince(rows, base, j) {
      if !IsSummaryRow(rows[j]) { NoneUnpairedSince(rows, base, j); }
    }
  }

  lemma {:induction false} CompactKeepsNothingUnpaired(l: Ledger, e: Event)
    requires Sound(l) && e.Compact? && Allowed(l, e) && KeepsTurns(l, e)
    requires l.unpaired == {} && AnchoredAt(l.rows, StartIndex(l.rows))
    ensures Next(l, e).unpaired == {} && AnchoredAt(Next(l, e).rows, StartIndex(Next(l, e).rows))
  {
    NoRowUnpairedSince(l.rows, Base(e.systemPrompt, l.rows));
    var i := NextStart(l, e);
    assert Next(l, e).rows[i] == l.rows[i];
  }

  lemma {:induction false} StepKeepsNothingUnpaired(l: Ledger, e: Event)
    requires Sound(l) && Allowed(l, e) && KeepsTurns(l, e)
    requires l.unpaired == {} && AnchoredAt(l.rows, StartIndex(l.rows))
    ensures Next(l, e).unpaired == {} && AnchoredAt(Next(l, e).rows, StartIndex(Next(l, e).rows))
  {
    if e.Append? {
      AppendKeepsStart(l.rows, e.row);
      assert StartIndex(l.rows) > 0 ==> (l.rows + [e.row])[StartIndex(l.rows)] == l.rows[StartIndex(l.rows)];
    } else {
      CompactKeepsNothingUnpaired(l, e);
    }
  }

  lemma {:induction false} RunKeepsNothingUnpaired(l: Ledger, events: seq<Event>)
    requires Sound(l) && AllowedRun(l, events) && KeepsTurnsRun(l, events)
    requires l.unpaired == {} && AnchoredAt(l.rows, StartIndex(l.rows))
    ensures Run(l, events).unpaired == {}
    ensures AnchoredAt(Run(l, events).rows, StartIndex(Run(l, events).rows))
    decreases |events|
  {
    if events != [] {
      StepKeepsNothingUnpaired(l, events[0]);
      RunIsSound(l, [events[0]]) by { assert [events[0]][1..] == []; }
      assert Run(l, [events[0]]) == Next(l, events[0]) by { assert [events[0]][1..] == []; }
      RunKeepsNothingUnpaired(Next(l, events[0]), events[1..]);
    }
  }

  /** In the shape a run persists, every row is behind the summaries or verbatim in the next prompt. */
  lemma {:induction false} ShapedRunsLoseNothing(
    rows: seq<Row>, events: seq<Event>, systemPrompt: string, overlays: seq<string>, j: nat)
    requires WellIded(rows) && LastSummary(rows) < 0 && AllowedRun(Unsummarized(rows), events)
    requires KeepsTurnsRun(Unsummarized(rows), events)
    requires Shaped(Transcript(Run(Unsummarized(rows), events).rows), {})
    requires j < |Run(Unsummarized(rows), events).rows|
    requires !IsSummaryRow(Run(Unsummarized(rows), events).rows[j])
    ensures var l := Run(Unsummarized(rows), events);
      l.rows[j].id in l.behind || Holds(Build(systemPrompt, l.rows, overlays), l.rows[j])
  {
    RunIsSound(Unsummarized(rows), events);
    RunKeepsNothingUnpaired(Unsummarized(rows), events);
    var l := Run(Unsummarized(rows), events);
    if j >= Base(systemPrompt, l.rows) {
      RowIsInPromptIffPaired(systemPrompt, l.rows, overlays, j);
      NoneUnpairedSince(l.rows, Base(systemPrompt, l.rows), j);
    }
  }

  // ---------------------------------------------------------------------------------------
  // Where the promise stops.
  // ---------------------------------------------------------------------------------------

  /** The rows when others, `newer`, have been saved behind the summary. */
  function RowsAfter(l: Ledger, e: Event, newer: seq<Row>): seq<Row>
    requires e.Compact? && e.cut <= |e.prompt|
  {
    After(l.rows, e.concurrent, SummaryRow(e.id, e.text, ResumePoint(l.rows, Kept(e)), true), newer)
  }

  /** Where the prompt starts when rows were saved during a compaction and others, `newer`, behind it. */
  lemma {:induction false} StartWithConcurrentRows(l: Ledger, e: Event, newer: seq<Row>)
    requires WellIded(l.rows) && e.Compact? && Allowed(l, e.(concurrent := [])) && NoSummaries(newer)
    ensures if SourceIds(Kept(e)) != {} then StartIndex(RowsAfter(l, e, newer)) <= |l.rows|
            else StartIndex(RowsAfter(l, e, newer)) == |l.rows| + |e.concurrent| + 1
  {
    var i := KeptTail(l, e.(concurrent := []));
    ResumesFromTail(l, e.(concurrent := []), i);
    StartAfterSummary(l.rows, e.concurrent, e.id, e.text, ResumePoint(l.rows, Kept(e)), newer, i);
  }

  /** Rows before the start of an answerable prompt are not in it. */
  lemma {:induction false} EarlierRowsAreNotInPrompt(
    systemPrompt: string, rows: seq<Row>, overlays: seq<string>, k: nat)
    requires WellIded(rows) && k < StartIndex(rows) && Base(systemPrompt, rows) == StartIndex(rows)
    ensures !Holds(Build(systemPrompt, rows, overlays), rows[k])
  {
    HoldsMeansContains(Build(systemPrompt, rows, overlays), rows[k]);
    RowIsInBuiltIffRepaired(systemPrompt, rows, overlays, k);
    MessageComesFromItsRow(rows, StartIndex(rows), {}, k);
  }

  /** Of any rows saved while a compaction ran, row `k` reaches the prompt of a later user message if and
      only if the compaction kept some row of the history and `k` is no unannounced result. */
  lemma {:induction false} ConcurrentRowSurvivesIffTailHoldsRow(
    l: Ledger, e: Event, k: nat, newer: seq<Row>, user: nat, systemPrompt: string, overlays: seq<string>)
    requires e.Compact? && Allowed(l, e.(concurrent := [])) && NoSummaries(e.concurrent) && NoSummaries(newer)
    requires k < |e.concurrent| && user < |newer| && newer[user].role == User
    requires WellIded(l.rows) && WellIded(RowsAfter(l, e, newer))
    ensures var rows := RowsAfter(l, e, newer);
      Holds(Build(systemPrompt, rows, overlays), e.concurrent[k]) <==>
      SourceIds(Kept(e)) != {} && !UnpairedSince(rows, StartIndex(rows), |l.rows| + k)
  {
    StartWithConcurrentRows(l, e, newer);
    ConcurrentRowInPrompt(l, e, k, newer, user, systemPrompt, overlays);
  }

  lemma {:induction false} ConcurrentRowInPrompt(
    l: Ledger, e: Event, k: nat, newer: seq<Row>, user: nat, systemPrompt: string, overlays: seq<string>)
    requires e.Compact? && e.cut <= |e.prompt| && NoSummaries(e.concurrent) && NoSummaries(newer)
    requires k < |e.concurrent| && user < |newer| && newer[user].role == User
    requires WellIded(RowsAfter(l, e, newer)) && StartIndex(RowsAfter(l, e, newer)) <= |l.rows| + |e.concurrent| + 1
    ensures var rows := RowsAfter(l, e, newer);
      Holds(Build(systemPrompt, rows, overlays), e.concurrent[k]) <==>
      StartIndex(rows) <= |l.rows| + k && !UnpairedSince(rows, StartIndex(rows), |l.rows| + k)
  {
    var summary := SummaryRow(e.id, e.text, ResumePoint(l.rows, Kept(e)), true);
    var rows, sent, at := RowsAfter(l, e, newer), |l.rows| + |e.concurrent| + 1 + user, |l.rows| + k;
    RowsBehindCompaction(l.rows, e.concurrent, summary, newer, k, user);
    assert rows[sent] == newer[user] && rows[at] == e.concurrent[k];
    AnsweringPromptHoldsRow(systemPrompt, rows, overlays, sent, at);
  }

  lemma {:induction false} RowsBehindCompaction(
    rows: seq<Row>, concurrent: seq<Row>, summary: Row, newer: seq<Row>, k: nat, user: nat)
    requires k < |concurrent| && user < |newer|
    ensures var all := After(rows, concurrent, summary, newer);
      |all| == |rows| + |concurrent| + 1 + |newer| && all[|rows| + k] == concurrent[k] &&
      all[|rows| + |concurrent| + 1 + user] == newer[user]
  {
  }

  /** A prompt that starts before a user row holds a row if and only if it starts no later than that row and
      does not leave it unannounced. */
  lemma {:induction false} AnsweringPromptHoldsRow(
    systemPrompt: string, rows: seq<Row>, overlays: seq<string>, user: nat, at: nat)
    requires WellIded(rows) && at < |rows| && !IsSummaryRow(rows[at])
    requires StartIndex(rows) <= user < |rows| && rows[user].role == User && !IsSummaryRow(rows[user])
    ensures Holds(Build(systemPrompt, rows, overlays), rows[at]) <==>
            StartIndex(rows) <= at && !UnpairedSince(rows, StartIndex(rows), at)
  {
    UserRowGivesTranscript(systemPrompt, rows, StartIndex(rows), user);
    if StartIndex(rows) <= at {
      RowIsInPromptIffPaired(systemPrompt, rows, overlays, at);
    } else {
      EarlierRowsAreNotInPrompt(systemPrompt, rows, overlays, at);
    }
  }

  /** `held` is `stored` without some of its summaries; held row `i` is stored row `at[i]`. */
  ghost predicate LacksSummaries(held: seq<Row>, stored: seq<Row>, at: seq<nat>) {
    |at| == |held| && (forall i :: 0 <= i < |at| ==> at[i] < |stored| && stored[at[i]] == held[i]) &&
    (forall i, j :: 0 <= i < j < |at| ==> at[i] < at[j]) &&
    forall j :: 0 <= j < |stored| && !IsSummaryRow(stored[j]) ==> exists i :: 0 <= i < |at| && at[i] == j
  }

  /** A run compacts again from the history it holds, which lacks the summary it has just saved. Every stored
      row before the new resume point is accounted for all the same: summarized now, behind the header the
      run still shows, or unpaired. */
  lemma {:induction false} SecondCompactionCovers(h: Ledger, e: Event, stored: seq<Row>, at: seq<nat>, j: nat)
    requires Sound(h) && e.Compact? && Allowed(h, e) && e.concurrent == []
    requires WellIded(stored) && LacksSummaries(h.rows, stored, at)
    requires j < |stored| && !IsSummaryRow(stored[j])
    requires var summary := SummaryRow(e.id, e.text, ResumePoint(h.rows, Kept(e)), true);
      j < StartIndex(After(stored, [], summary, []))
    ensures stored[j].id in Next(h, e).behind || stored[j].id in Next(h, e).unpaired
  {
    var i := KeptTail(h, e);
    var k :| 0 <= k < |at| && at[k] == j;
    if SourceIds(Kept(e)) != {} {
      SecondStart(h, e, stored, at, i);
      assert forall m :: i <= m < |at| ==> at[i] <= at[m];
    }
    CompactCovers(h, e, i, k);
  }

  lemma {:induction false} SecondStart(h: Ledger, e: Event, stored: seq<Row>, at: seq<nat>, i: nat)
    requires WellIded(h.rows) && e.Compact? && Allowed(h, e) && KeepsFrom(h, e, i) && SourceIds(Kept(e)) != {}
    requires WellIded(stored) && LacksSummaries(h.rows, stored, at)
    ensures i < |at|
    ensures StartIndex(After(stored, [], SummaryRow(e.id, e.text, ResumePoint(h.rows, Kept(e)), true), [])) == at[i]
  {
    ResumesFromTail(h, e, i);
    assert stored[at[i]].id == h.rows[i].id;
    StartAfterSummary(stored, [], e.id, e.text, ResumePoint(h.rows, Kept(e)), [], at[i]);
  }

  ghost predicate SomeIdsBlank(stored: seq<Row>, held: seq<Row>) {
    |held| == |stored| &&
    forall k :: 0 <= k < |held| ==> held[k] == stored[k] || held[k] == stored[k].(id := "")
  }

  /** A run holds its own user and tool rows without the ids the store gave them. Whatever the cut of the
      prompt it builds from them: the next prompt resumes at the first kept row, `i`, if and only if that
      row has an id; otherwise it starts behind it. */
  lemma {:induction false} HeldHistoryResumesIffFirstRowHasId(
    stored: seq<Row>, held: seq<Row>, systemPrompt: string, overlays: seq<string>, cut: nat, id: string, text: string)
    returns (i: nat)
    requires WellIded(stored) && SomeIdsBlank(stored, held) && IsCut(Build(systemPrompt, held, overlays), cut)
    ensures var kept := Build(systemPrompt, held, overlays)[cut..];
      var start := StartIndex(After(stored, [], SummaryRow(id, text, ResumePoint(held, kept), true), []));
      if i == |held| then HoldsNoRow(kept) && start == |stored| + 1
      else TailAt(held, overlays, kept, i) && i <= start && (start == i <==> held[i].id != "")
  {
    i := CutKeepsTail(systemPrompt, held, overlays, cut);
    var kept := Build(systemPrompt, held, overlays)[cut..];
    var ids := SourceIds(kept);
    if ids == {} {
      NoRowIn(held);
      StartAfterSummary(stored, [], id, text, "", [], 0);
    } else {
      var k :| k in ids;
      var j :| i <= j < |held| && held[j].id == k;
      FirstRowHeld(stored, held, overlays, kept, i, id, text, j);
    }
  }

  lemma {:induction false} FirstRowHeld(
    stored: seq<Row>, held: seq<Row>, overlays: seq<string>, kept: seq<ChatMessage>, i: nat, id: string, text: string,
    j: nat)
    requires WellIded(stored) && SomeIdsBlank(stored, held) && TailAt(held, overlays, kept, i)
    requires i <= j < |held| && held[j].id in SourceIds(kept)
    ensures var start := StartIndex(After(stored, [], SummaryRow(id, text, ResumePoint(held, kept), true), []));
      i <= start && (start == i <==> held[i].id != "")
  {
    var first := FirstHeld(held, SourceIds(kept), 0, j);
    assert held[first].id == stored[first].id && first >= i;
    assert held[i].id != "" ==> first == i;
    StartAfterSummary(stored, [], id, text, held[first].id, [], first);
  }

  lemma {:induction false} FirstHeld(held: seq<Row>, ids: set<string>, from: nat, j: nat) returns (first: nat)
    requires from <= j < |held| && held[j].id in ids
    requires forall k :: 0 <= k < from ==> held[k].id !in ids
    ensures from <= first <= j && held[first].id in ids && FirstRowIn(held, ids) == held[first].id
    ensures forall k :: 0 <= k < first ==> held[k].id !in ids
    decreases j - from
  {
    if held[from].id in ids {
      first := from;
      FirstRowInIs(held, ids, from);
    } else {
      first := FirstHeld(held, ids, from + 1, j);
    }
  }
}
