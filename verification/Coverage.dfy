/** What a compaction cut keeps, and where the prompt built after it resumes. */
module Coverage {
  import opened Messages
  import opened PromptRepair
  import opened RepairNormalForm
  import opened KeepBoundary
  import opened PromptAssembly
  import opened RenderedPrompt
  import opened Compaction

  /** Rows as the store lists them: every row has an id of its own. */
  ghost predicate WellIded(rows: seq<Row>) {
    (forall i :: 0 <= i < |rows| ==> rows[i].id != "") &&
    forall i, j :: 0 <= i < j < |rows| ==> rows[i].id != rows[j].id
  }

  ghost predicate NoSummaries(rows: seq<Row>) {
    forall i :: 0 <= i < |rows| ==> !IsSummaryRow(rows[i])
  }

  ghost predicate IsRowMessage(rows: seq<Row>, i: nat, message: ChatMessage) {
    i < |rows| && !IsSummaryRow(rows[i]) && message == MessageOf(rows[i])
  }

  lemma {:induction false} AddedMessages(before: seq<ChatMessage>, after: seq<ChatMessage>, message: ChatMessage)
    requires AddsOnlySynthetic(before, after) && message in after
    ensures message in before || IsSynthetic(message)
    decreases |after|
  {
    if message != after[0] {
      assert message in after[1..];
      if before != [] && after[0] == before[0] && AddsOnlySynthetic(before[1..], after[1..]) {
        AddedMessages(before[1..], after[1..], message);
      } else {
        AddedMessages(before, after[1..], message);
      }
    }
  }

  lemma {:induction false} DroppedMembers(messages: seq<ChatMessage>, announced: set<string>, message: ChatMessage)
    requires message in Drop(messages, announced)
    ensures message in messages
  {
    var announced' := announced + CallIds(messages[0]);
    if Orphan(messages[0], announced') || message != messages[0] {
      DroppedMembers(messages[1..], announced', message);
    }
  }

  lemma {:induction false} TranscriptIsRows(rows: seq<Row>, message: ChatMessage)
    requires message in Transcript(rows)
    ensures exists i: nat :: IsRowMessage(rows, i, message)
  {
    if !IsSummaryRow(rows[0]) && message == MessageOf(rows[0]) {
      assert IsRowMessage(rows, 0, message);
    } else {
      TranscriptIsRows(rows[1..], message);
      var i: nat :| IsRowMessage(rows[1..], i, message);
      assert IsRowMessage(rows, i + 1, message);
    }
  }

  /** A repaired transcript holds row messages and synthetic results, the latter without an id. */
  lemma {:induction false} RepairedMembers(rows: seq<Row>, start: nat, announced: set<string>, message: ChatMessage)
    requires start <= |rows| && message in Drop(Fix(Transcript(rows[start..])), announced)
    ensures message.sourceMessageId == "" || exists i: nat :: start <= i && IsRowMessage(rows, i, message)
  {
    var transcript := Transcript(rows[start..]);
    DroppedMembers(Fix(transcript), announced, message);
    FixAddsOnlySynthetic(transcript);
    AddedMessages(transcript, Fix(transcript), message);
    if message in transcript {
      TranscriptIsRows(rows[start..], message);
      var i: nat :| IsRowMessage(rows[start..], i, message);
      assert IsRowMessage(rows, start + i, message);
    }
  }

  // ---------------------------------------------------------------------------------------
  // What a cut keeps.
  // ---------------------------------------------------------------------------------------

  /** A compaction cut of `prompt`: behind the system prompt and outside every tool turn. */
  ghost predicate IsCut(prompt: seq<ChatMessage>, cut: nat) {
    2 <= cut < |prompt| && SafeCut(prompt[1..], cut - 1)
  }

  /** The tail starts at row `i`: it is the repair of the rows from there on. */
  ghost predicate TailAt(rows: seq<Row>, overlays: seq<string>, kept: seq<ChatMessage>, i: nat) {
    i < |rows| && !IsSummaryRow(rows[i]) && rows[i].role != Tool &&
    Drop(kept, {}) == Repair(Transcript(rows[i..])) + Overlays(overlays) &&
    (rows[i].id != "" ==> rows[i].id in SourceIds(kept)) &&
    forall id :: id in SourceIds(kept) ==> exists j :: i <= j < |rows| && rows[j].id == id
  }

  /** The tail starts at row `i`, and holds the id of that row. */
  ghost predicate ResumesAt(rows: seq<Row>, overlays: seq<string>, kept: seq<ChatMessage>, i: nat) {
    TailAt(rows, overlays, kept, i) && rows[i].id in SourceIds(kept)
  }

  lemma {:induction false} BuildParts(systemPrompt: string, rows: seq<Row>, overlays: seq<string>)
    ensures Build(systemPrompt, rows, overlays) ==
      Head(systemPrompt, SummaryText(rows)) + Repair(Transcript(rows[Base(systemPrompt, rows)..])) + Overlays(overlays)
  {
    AssembleIsHeadAndRepair(systemPrompt, rows, Base(systemPrompt, rows));
  }

  lemma {:induction false} SourcesOfTail(
    rows: seq<Row>, overlays: seq<string>, i: nat, tail: seq<ChatMessage>, later: set<string>)
    requires i <= |rows| && tail == Drop(Fix(Transcript(rows[i..])), later)
    ensures forall id :: id in SourceIds(tail + Overlays(overlays)) ==> exists j :: i <= j < |rows| && rows[j].id == id
  {
    OverlaysAreSystem(overlays);
    forall id | id in SourceIds(tail + Overlays(overlays)) ensures exists j :: i <= j < |rows| && rows[j].id == id {
      var message :| message in tail + Overlays(overlays) && message.sourceMessageId == id && id != "";
      assert message in tail;
      RepairedMembers(rows, i, later, message);
      var j: nat :| i <= j && IsRowMessage(rows, j, message);
      assert rows[j].id == id;
    }
  }

  lemma {:induction false} TailParts(
    head: seq<ChatMessage>, middle: seq<ChatMessage>, systems: seq<ChatMessage>, cut: nat)
    requires |head| <= cut <= |head| + |middle| + |systems|
    ensures var q, prompt := cut - |head|, head + middle + systems;
      if q < |middle| then prompt[cut..] == middle[q..] + systems && prompt[cut] == middle[q]
      else prompt[cut..] == systems[q - |middle|..]
  {
  }

  /** A tail without rows: nothing but overlays. */
  ghost predicate HoldsNoRow(kept: seq<ChatMessage>) {
    SourceIds(kept) == {} && AllSystem(kept)
  }

  lemma {:induction false} RowTail(rows: seq<Row>, base: nat, overlays: seq<string>, q: nat) returns (i: nat)
    requires base <= |rows|
    requires q < |Repair(Transcript(rows[base..]))| && Repair(Transcript(rows[base..]))[q].role != Tool
    ensures base <= i && TailAt(rows, overlays, Repair(Transcript(rows[base..]))[q..] + Overlays(overlays), i)
  {
    var tail := Repair(Transcript(rows[base..]))[q..];
    i := TailStartsAtRow(rows, base, q);
    var later :| tail == Drop(Fix(Transcript(rows[i..])), later);
    OverlaysAreSystem(overlays);
    SourcesOfTail(rows, overlays, i, tail, later);
    DropBehind(tail, Overlays(overlays), {});
    assert (tail + Overlays(overlays))[0] == MessageOf(rows[i]);
    assert MessageOf(rows[i]) in tail + Overlays(overlays);
  }

  lemma {:induction false} OverlayTail(overlays: seq<string>, start: nat)
    requires start <= |Overlays(overlays)|
    ensures HoldsNoRow(Overlays(overlays)[start..])
  {
    OverlaysAreSystem(overlays);
  }

  lemma {:induction false} TailOfParts(
    head: seq<ChatMessage>, rows: seq<Row>, base: nat, overlays: seq<string>, cut: nat) returns (i: nat)
    requires base <= |rows| && |head| <= cut
    requires cut < |head + Repair(Transcript(rows[base..])) + Overlays(overlays)|
    requires (head + Repair(Transcript(rows[base..])) + Overlays(overlays))[cut].role != Tool
    ensures var kept := (head + Repair(Transcript(rows[base..])) + Overlays(overlays))[cut..];
      if i == |rows| then HoldsNoRow(kept) else base <= i && TailAt(rows, overlays, kept, i)
  {
    var repaired, q := Repair(Transcript(rows[base..])), cut - |head|;
    TailParts(head, repaired, Overlays(overlays), cut);
    if q < |repaired| {
      i := RowTail(rows, base, overlays, q);
    } else {
      i := |rows|;
      OverlayTail(overlays, q - |repaired|);
    }
  }

  /** Whether or not the rows have ids: the tail starts at a row at or behind the start of the prompt, or it
      holds nothing but overlays. */
  lemma {:induction false} CutKeepsTail(
    systemPrompt: string, rows: seq<Row>, overlays: seq<string>, cut: nat) returns (i: nat)
    requires IsCut(Build(systemPrompt, rows, overlays), cut)
    ensures var kept := Build(systemPrompt, rows, overlays)[cut..];
      if i == |rows| then HoldsNoRow(kept) else Base(systemPrompt, rows) <= i && TailAt(rows, overlays, kept, i)
  {
    BuildParts(systemPrompt, rows, overlays);
    assert Build(systemPrompt, rows, overlays)[1..][cut - 1] == Build(systemPrompt, rows, overlays)[cut];
    i := TailOfParts(Head(systemPrompt, SummaryText(rows)), rows, Base(systemPrompt, rows), overlays, cut);
  }

  /** Either the tail resumes at a row at or behind the start of the prompt, or it holds no row at all. */
  lemma {:induction false} CutKeepsRowSuffix(
    systemPrompt: string, rows: seq<Row>, overlays: seq<string>, cut: nat) returns (i: nat)
    requires WellIded(rows) && IsCut(Build(systemPrompt, rows, overlays), cut)
    ensures var kept := Build(systemPrompt, rows, overlays)[cut..];
      if SourceIds(kept) == {} then HoldsNoRow(kept)
      else Base(systemPrompt, rows) <= i && ResumesAt(rows, overlays, kept, i)
  {
    i := CutKeepsTail(systemPrompt, rows, overlays, cut);
  }

  lemma {:induction false} FirstRowInIs(rows: seq<Row>, ids: set<string>, i: nat)
    requires i < |rows| && rows[i].id in ids
    requires forall j :: 0 <= j < i ==> rows[j].id !in ids
    ensures FirstRowIn(rows, ids) == rows[i].id
  {
    if i > 0 { FirstRowInIs(rows[1..], ids, i - 1); }
  }

  lemma {:induction false} NoRowIn(rows: seq<Row>)
    ensures FirstRowIn(rows, {}) == ""
  {
    if rows != [] { NoRowIn(rows[1..]); }
  }

  /** The recorded id names the first kept row. */
  lemma {:induction false} ResumePointIs(rows: seq<Row>, overlays: seq<string>, kept: seq<ChatMessage>, i: nat)
    requires WellIded(rows) && ResumesAt(rows, overlays, kept, i)
    ensures ResumePoint(rows, kept) == rows[i].id
  {
    FirstRowInIs(rows, SourceIds(kept), i);
  }

  // ---------------------------------------------------------------------------------------
  // Where the next prompt resumes.
  // ---------------------------------------------------------------------------------------

  lemma {:induction false} LastSummaryBefore(rows: seq<Row>, newer: seq<Row>)
    requires NoSummaries(newer)
    ensures LastSummary(rows + newer) == LastSummary(rows)
    decreases |newer|
  {
    if newer == [] {
      assert rows + newer == rows;
    } else {
      var last := |newer| - 1;
      assert (rows + newer)[..|rows| + last] == rows + newer[..last];
      assert (rows + newer)[|rows| + last] == newer[last];
      LastSummaryBefore(rows, newer[..last]);
    }
  }

  lemma {:induction false} FirstWithIdIs(rows: seq<Row>, i: nat)
    requires i < |rows| && forall j :: 0 <= j < i ==> rows[j].id != rows[i].id
    ensures FirstWithId(rows, rows[i].id) == Some(i)
  {
    if i > 0 { FirstWithIdIs(rows[1..], i - 1); }
  }

  /** The rows after a compaction whose summary `row` was saved behind `concurrent` rows. */
  function After(rows: seq<Row>, concurrent: seq<Row>, row: Row, newer: seq<Row>): seq<Row> {
    rows + concurrent + [row] + newer
  }

  lemma {:induction false} StartAfterSummary(
    rows: seq<Row>, concurrent: seq<Row>, id: string, text: string, resumeFrom: string, newer: seq<Row>, i: nat)
    requires NoSummaries(newer)
    requires resumeFrom != "" ==> i < |rows| && rows[i].id == resumeFrom
    requires resumeFrom != "" ==> forall j :: 0 <= j < i ==> rows[j].id != resumeFrom
    ensures var all := After(rows, concurrent, SummaryRow(id, text, resumeFrom, true), newer);
      LastSummary(all) == |rows| + |concurrent| &&
      SummaryText(all) == text &&
      RecordedResume(all, |rows| + |concurrent|).Some? &&
      StartIndex(all) == if resumeFrom == "" then |rows| + |concurrent| + 1 else i
  {
    var row := SummaryRow(id, text, resumeFrom, true);
    var upTo := rows + concurrent + [row];
    var all := After(rows, concurrent, row, newer);
    assert upTo[|rows| + |concurrent|] == row;
    LastSummaryBefore(upTo, newer);
    assert all[|rows| + |concurrent|] == row;
    if resumeFrom != "" {
      assert forall j :: 0 <= j <= i ==> all[j] == rows[j];
      FirstWithIdIs(all, i);
    }
  }

  /** A degraded summary records no coverage: whatever id it names, the next prompt starts at the guess from its
      position or at the latest user row. */
  lemma {:induction false} StartAfterDegradedSummary(
    rows: seq<Row>, id: string, text: string, resumeFrom: string, newer: seq<Row>, guess: nat, user: nat)
    requires NoSummaries(newer)
    requires var all := After(rows, [], SummaryRow(id, text, resumeFrom, false), newer);
      IsGuess(all, |rows| + 1, guess) && IsLatestUser(all, user)
    ensures var all := After(rows, [], SummaryRow(id, text, resumeFrom, false), newer);
      SummaryText(all) == text && StartIndex(all) == if user < guess then user else guess
  {
    var row := SummaryRow(id, text, resumeFrom, false);
    var all := After(rows, [], row, newer);
    assert (rows + [] + [row])[|rows|] == row;
    LastSummaryBefore(rows + [] + [row], newer);
    assert all[|rows|] == row;
    assert IsLastSummary(all, |rows|);
    StartIsRecordedOrGuessed(all, |rows|, guess, user);
  }

  lemma {:induction false} TranscriptOfConcat(left: seq<Row>, right: seq<Row>)
    ensures Transcript(left + right) == Transcript(left) + Transcript(right)
  {
    if left == [] {
      assert left + right == right;
    } else {
      assert (left + right)[1..] == left[1..] + right;
      TranscriptOfConcat(left[1..], right);
    }
  }

  lemma {:induction false} TranscriptOfParts(kept: seq<Row>, concurrent: seq<Row>, row: Row, newer: seq<Row>)
    requires IsSummaryRow(row)
    ensures Transcript(kept + (concurrent + ([row] + newer)))
         == Transcript(kept) + (Transcript(concurrent) + Transcript(newer))
  {
    TranscriptOfConcat(kept, concurrent + ([row] + newer));
    TranscriptOfConcat(concurrent, [row] + newer);
    TranscriptOfConcat([row], newer);
    assert Transcript([row]) == [] && [] + Transcript(newer) == Transcript(newer);
  }

  /** The transcript from kept row `i` on: the kept rows, then everything that arrived since. */
  lemma {:induction false} TranscriptAfter(rows: seq<Row>, concurrent: seq<Row>, row: Row, newer: seq<Row>, i: nat)
    requires i <= |rows| && IsSummaryRow(row)
    ensures Transcript(After(rows, concurrent, row, newer)[i..])
         == Transcript(rows[i..]) + (Transcript(concurrent) + Transcript(newer))
  {
    assert After(rows, concurrent, row, newer)[i..] == rows[i..] + (concurrent + ([row] + newer));
    TranscriptOfParts(rows[i..], concurrent, row, newer);
  }

  /** The prompt rebuilt after a compaction: the new header, then the repair of exactly the kept rows
      followed by the rows that arrived since. With none, it is the compressed prompt itself. */
  lemma {:induction false} RebuildIsKeptTailAndNewerRows(
    systemPrompt: string, rows: seq<Row>, overlays: seq<string>, cut: nat,
    concurrent: seq<Row>, id: string, text: string, newer: seq<Row>)
    returns (i: nat)
    requires WellIded(rows) && IsCut(Build(systemPrompt, rows, overlays), cut) && text != "" && NoSummaries(newer)
    requires SourceIds(Build(systemPrompt, rows, overlays)[cut..]) != {}
    ensures var prompt := Build(systemPrompt, rows, overlays);
      var all := After(rows, concurrent, SummaryRow(id, text, ResumePoint(rows, prompt[cut..]), true), newer);
      ResumesAt(rows, overlays, prompt[cut..], i) && StartIndex(all) == i &&
      Compress(prompt, cut, text) == Head(systemPrompt, text) + Repair(Transcript(rows[i..])) + Overlays(overlays) &&
      (Base(systemPrompt, all) == StartIndex(all) ==>
        Build(systemPrompt, all, overlays) == Head(systemPrompt, text)
          + Repair(Transcript(rows[i..]) + (Transcript(concurrent) + Transcript(newer))) + Overlays(overlays))
  {
    i := CompressedTail(systemPrompt, rows, overlays, cut, text);
    var resumeFrom := ResumePoint(rows, Build(systemPrompt, rows, overlays)[cut..]);
    var row := SummaryRow(id, text, resumeFrom, true);
    StartAfterSummary(rows, concurrent, id, text, resumeFrom, newer, i);
    if Base(systemPrompt, After(rows, concurrent, row, newer)) == i {
      BuildAfter(systemPrompt, rows, overlays, concurrent, row, newer, i);
    }
  }

  lemma {:induction false} CompressedTail(
    systemPrompt: string, rows: seq<Row>, overlays: seq<string>, cut: nat, text: string) returns (i: nat)
    requires WellIded(rows) && IsCut(Build(systemPrompt, rows, overlays), cut) && text != ""
    requires SourceIds(Build(systemPrompt, rows, overlays)[cut..]) != {}
    ensures var prompt := Build(systemPrompt, rows, overlays);
      ResumesAt(rows, overlays, prompt[cut..], i) && ResumePoint(rows, prompt[cut..]) == rows[i].id &&
      Compress(prompt, cut, text) == Head(systemPrompt, text) + Repair(Transcript(rows[i..])) + Overlays(overlays)
  {
    i := CutKeepsRowSuffix(systemPrompt, rows, overlays, cut);
    ResumePointIs(rows, overlays, Build(systemPrompt, rows, overlays)[cut..], i);
    CompressIs(systemPrompt, rows, overlays, cut, text);
  }

  lemma {:induction false} BuildAfter(
    systemPrompt: string, rows: seq<Row>, overlays: seq<string>, concurrent: seq<Row>, row: Row, newer: seq<Row>,
      i: nat)
    requires i <= |rows| && IsSummaryRow(row) && Base(systemPrompt, After(rows, concurrent, row, newer)) == i
    ensures var all := After(rows, concurrent, row, newer);
      Build(systemPrompt, all, overlays) == Head(systemPrompt, SummaryText(all))
        + Repair(Transcript(rows[i..]) + (Transcript(concurrent) + Transcript(newer))) + Overlays(overlays)
  {
    BuildParts(systemPrompt, After(rows, concurrent, row, newer), overlays);
    TranscriptAfter(rows, concurrent, row, newer, i);
  }

  lemma {:induction false} CompressIs(
    systemPrompt: string, rows: seq<Row>, overlays: seq<string>, cut: nat, text: string)
    requires IsCut(Build(systemPrompt, rows, overlays), cut) && text != ""
    ensures var prompt := Build(systemPrompt, rows, overlays);
      Compress(prompt, cut, text) == Head(systemPrompt, text) + Drop(prompt[cut..], {})
  {
    var prompt := Build(systemPrompt, rows, overlays);
    BuildStartsWithSystem(systemPrompt, rows, overlays);
    assert Head(systemPrompt, text) == [prompt[0], SystemMessage(SUMMARY_PREFIX + text)];
    RepairSkipsSystems(Head(systemPrompt, text), prompt[cut..], {});
  }

  /** Right after a compaction the rebuilt prompt is the compressed one if and only if that one still
      holds something to answer; otherwise the whole history is replayed. */
  lemma {:induction false} RebuildEqualsCompressed(
    systemPrompt: string, rows: seq<Row>, overlays: seq<string>, cut: nat, id: string, text: string, user: nat)
    requires WellIded(rows) && IsCut(Build(systemPrompt, rows, overlays), cut) && text != ""
    requires user < |rows| && rows[user].role == User && !IsSummaryRow(rows[user])
    ensures var prompt := Build(systemPrompt, rows, overlays);
      var all := After(rows, [], SummaryRow(id, text, ResumePoint(rows, prompt[cut..]), true), []);
      Build(systemPrompt, all, overlays) == Compress(prompt, cut, text) <==> HasTranscript(Compress(prompt, cut, text))
  {
    var prompt := Build(systemPrompt, rows, overlays);
    var row := SummaryRow(id, text, ResumePoint(rows, prompt[cut..]), true);
    var all := After(rows, [], row, []);
    assert all[user] == rows[user];
    PromptIsAnswerable(systemPrompt, all, overlays, user);
    if SourceIds(prompt[cut..]) == {} {
      EmptyTailCompresses(systemPrompt, rows, overlays, cut, text);
    } else {
      RowTailRepeats(systemPrompt, rows, overlays, cut, id, text);
    }
  }

  lemma {:induction false} RowTailRepeats(
    systemPrompt: string, rows: seq<Row>, overlays: seq<string>, cut: nat, id: string, text: string)
    requires WellIded(rows) && IsCut(Build(systemPrompt, rows, overlays), cut) && text != ""
    requires SourceIds(Build(systemPrompt, rows, overlays)[cut..]) != {}
    ensures var prompt := Build(systemPrompt, rows, overlays);
      var all := After(rows, [], SummaryRow(id, text, ResumePoint(rows, prompt[cut..]), true), []);
      HasTranscript(Compress(prompt, cut, text)) ==> Build(systemPrompt, all, overlays) == Compress(prompt, cut, text)
  {
    var resumeFrom := ResumePoint(rows, Build(systemPrompt, rows, overlays)[cut..]);
    var row := SummaryRow(id, text, resumeFrom, true);
    var i := RebuildIsKeptTailAndNewerRows(systemPrompt, rows, overlays, cut, [], id, text, []);
    TranscriptAfter(rows, [], row, [], i);
    ResumePointIs(rows, overlays, Build(systemPrompt, rows, overlays)[cut..], i);
    StartAfterSummary(rows, [], id, text, resumeFrom, [], i);
    assert Transcript(rows[i..]) + (Transcript([]) + Transcript([])) == Transcript(rows[i..]);
    RepeatsCompressed(systemPrompt, rows, overlays, text, After(rows, [], row, []), i);
  }

  lemma {:induction false} EmptyTailCompresses(
    systemPrompt: string, rows: seq<Row>, overlays: seq<string>, cut: nat, text: string)
    requires WellIded(rows) && IsCut(Build(systemPrompt, rows, overlays), cut) && text != ""
    requires SourceIds(Build(systemPrompt, rows, overlays)[cut..]) == {}
    ensures !HasTranscript(Compress(Build(systemPrompt, rows, overlays), cut, text))
  {
    var kept := Build(systemPrompt, rows, overlays)[cut..];
    CompressIs(systemPrompt, rows, overlays, cut, text);
    var i := CutKeepsRowSuffix(systemPrompt, rows, overlays, cut);
    SystemsAlone(kept, {});
  }

  lemma {:induction false} RepeatsCompressed(
    systemPrompt: string, rows: seq<Row>, overlays: seq<string>, text: string, all: seq<Row>, i: nat)
    requires i < |rows| && StartIndex(all) == i && SummaryText(all) == text
    requires i <= |all| && Transcript(all[i..]) == Transcript(rows[i..])
    ensures var compressed := Head(systemPrompt, text) + Repair(Transcript(rows[i..])) + Overlays(overlays);
      HasTranscript(compressed) ==> Build(systemPrompt, all, overlays) == compressed
  {
    var assembled := Assemble(systemPrompt, all, i);
    AssembleIsHeadAndRepair(systemPrompt, all, i);
    var compressed := assembled + Overlays(overlays);
    OverlaysAreSystem(overlays);
    if HasTranscript(compressed) {
      var k :| 0 <= k < |compressed| && compressed[k].role != System;
      assert assembled[k].role != System;
    }
  }
}
