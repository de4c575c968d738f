/** Merging the capped fact lists of chunk summaries. */
module FactMerging {

  const MAX_FACTS := 8

  /** `fold` maps a fact to the key it is compared by; the source lower-cases it. */
  function Seen(fold: string -> string, facts: seq<string>): set<string> {
    set fact | fact in facts :: fold(fact)
  }

  /** The non-empty facts whose keys are not in `seen` yet, first occurrences only. */
  function Distinct(fold: string -> string, lines: seq<string>, seen: set<string>): seq<string> {
    if lines == [] then []
    else if lines[0] == "" || fold(lines[0]) in seen then Distinct(fold, lines[1..], seen)
    else [lines[0]] + Distinct(fold, lines[1..], seen + {fold(lines[0])})
  }

  function Cap(facts: seq<string>): seq<string> {
    if |facts| > MAX_FACTS then facts[..MAX_FACTS] else facts
  }

  function Normalize(fold: string -> string, lines: seq<string>): seq<string> {
    Cap(Distinct(fold, lines, {}))
  }

  method NormalizeFactLines(fold: string -> string, lines: seq<string>) returns (normalized: seq<string>)
    ensures normalized == Normalize(fold, lines)
  {
    var seen: set<string> := {};
    normalized := [];
    for index := 0 to |lines|
      invariant normalized + Distinct(fold, lines[index..], seen) == Distinct(fold, lines, {})
    {
      assert lines[index..][1..] == lines[index + 1..];
      var line := lines[index];
      if line == "" {
        continue;
      }
      var key := fold(line);
      if key in seen {
        continue;
      }
      seen := seen + {key};
      normalized := normalized + [line];
    }
    if |normalized| > MAX_FACTS {
      normalized := normalized[..MAX_FACTS];
    }
  }

  // ---------------------------------------------------------------------------------------
  // What a normalized list is.
  // ---------------------------------------------------------------------------------------

  /** Line `i` is the first non-empty one with its key. */
  ghost predicate IsFirst(fold: string -> string, lines: seq<string>, i: nat)
    requires i < |lines|
  {
    lines[i] != "" && forall j :: 0 <= j < i && lines[j] != "" ==> fold(lines[j]) != fold(lines[i])
  }

  ghost function FirstsBefore(fold: string -> string, lines: seq<string>, end: nat): seq<string>
    requires end <= |lines|
  {
    if end == 0 then []
    else FirstsBefore(fold, lines, end - 1) + (if IsFirst(fold, lines, end - 1) then [lines[end - 1]] else [])
  }

  lemma {:induction false} DistinctFrom(fold: string -> string, lines: seq<string>, start: nat, seen: set<string>)
    requires start <= |lines|
    requires forall key :: key in seen <==> exists j :: 0 <= j < start && lines[j] != "" && fold(lines[j]) == key
    ensures FirstsBefore(fold, lines, start) + Distinct(fold, lines[start..], seen)
         == FirstsBefore(fold, lines, |lines|)
    decreases |lines| - start
  {
    if start < |lines| {
      var line, rest := lines[start], lines[start + 1..];
      assert lines[start..] == [line] + rest;
      DistinctFrom(fold, lines, start + 1, if line == "" then seen else seen + {fold(line)});
      if line != "" && fold(line) in seen { assert seen + {fold(line)} == seen; }
      assert FirstsBefore(fold, lines, start) + ([line] + Distinct(fold, rest, seen + {fold(line)})) ==
        FirstsBefore(fold, lines, start) + [line] + Distinct(fold, rest, seen + {fold(line)});
      assert FirstsBefore(fold, lines, start) + [] == FirstsBefore(fold, lines, start);
    }
  }

  /** The first eight of the lines that are first with their key. */
  ghost predicate IsFirstEight(fold: string -> string, lines: seq<string>, kept: seq<string>) {
    var firsts := FirstsBefore(fold, lines, |lines|);
    kept == if |firsts| > 8 then firsts[..8] else firsts
  }

  /** Normalizing keeps the first eight of the lines that are first with their key, in order. */
  lemma {:induction false} NormalizeKeepsFirsts(fold: string -> string, lines: seq<string>)
    ensures Normalize(fold, lines) == Cap(FirstsBefore(fold, lines, |lines|))
    ensures IsFirstEight(fold, lines, Normalize(fold, lines))
  {
    DistinctFrom(fold, lines, 0, {});
    assert lines[0..] == lines;
    assert FirstsBefore(fold, lines, 0) == [];
    assert [] + Distinct(fold, lines, {}) == Distinct(fold, lines, {});
  }

  // ---------------------------------------------------------------------------------------
  // Capping before merging loses nothing that the merged cap would keep.
  // ---------------------------------------------------------------------------------------

  lemma {:induction false} DistinctOfConcat(
    fold: string -> string, left: seq<string>, right: seq<string>, seen: set<string>)
    ensures Distinct(fold, left + right, seen)
         == Distinct(fold, left, seen) + Distinct(fold, right, seen + Seen(fold, Distinct(fold, left, seen)))
  {
    if left == [] {
      assert left + right == right;
      assert seen + Seen(fold, []) == seen;
    } else {
      assert (left + right)[1..] == left[1..] + right;
      if left[0] == "" || fold(left[0]) in seen {
        DistinctOfConcat(fold, left[1..], right, seen);
      } else {
        var seen' := seen + {fold(left[0])};
        DistinctOfConcat(fold, left[1..], right, seen');
        var rest := Distinct(fold, left[1..], seen');
        SeenSnoc(fold, left[0], rest);
        assert seen + Seen(fold, [left[0]] + rest) == seen' + Seen(fold, rest);
      }
    }
  }

  lemma {:induction false} SeenSnoc(fold: string -> string, first: string, rest: seq<string>)
    ensures Seen(fold, [first] + rest) == {fold(first)} + Seen(fold, rest)
  {
    assert forall fact :: fact in [first] + rest <==> fact == first || fact in rest;
  }

  /** The facts of a list whose keys are not in `more`. */
  function Without(fold: string -> string, facts: seq<string>, more: set<string>): seq<string> {
    if facts == [] then []
    else (if fold(facts[0]) in more then [] else [facts[0]]) + Without(fold, facts[1..], more)
  }

  /** Deduplicating against more keys is deduplicating first and filtering afterwards. */
  lemma {:induction false} DistinctAgainstMore(
    fold: string -> string, lines: seq<string>, seen: set<string>, more: set<string>)
    ensures Distinct(fold, lines, seen + more) == Without(fold, Distinct(fold, lines, seen), more)
  {
    if lines != [] {
      var key := fold(lines[0]);
      if lines[0] == "" || key in seen {
        DistinctAgainstMore(fold, lines[1..], seen, more);
      } else {
        DistinctAgainstMore(fold, lines[1..], seen + {key}, more);
        assert seen + {key} + more == seen + more + {key};
        if key in more { assert seen + more + {key} == seen + more; }
      }
    }
  }

  ghost predicate DistinctKeys(fold: string -> string, facts: seq<string>) {
    forall i, j :: 0 <= i < j < |facts| ==> fold(facts[i]) != fold(facts[j])
  }

  lemma {:induction false} DistinctHasDistinctKeys(fold: string -> string, lines: seq<string>, seen: set<string>)
    ensures DistinctKeys(fold, Distinct(fold, lines, seen))
    ensures forall fact :: fact in Distinct(fold, lines, seen) ==> fact != "" && fold(fact) !in seen
  {
    if lines != [] {
      if lines[0] == "" || fold(lines[0]) in seen {
        DistinctHasDistinctKeys(fold, lines[1..], seen);
      } else {
        DistinctHasDistinctKeys(fold, lines[1..], seen + {fold(lines[0])});
      }
    }
  }

  /** A list that is already normalized stays as it is. */
  lemma {:induction false} DistinctIsIdentity(fold: string -> string, facts: seq<string>, seen: set<string>)
    requires DistinctKeys(fold, facts)
    requires forall fact :: fact in facts ==> fact != "" && fold(fact) !in seen
    ensures Distinct(fold, facts, seen) == facts
  {
    if facts != [] {
      forall fact | fact in facts[1..] ensures fact in facts && fold(fact) != fold(facts[0]) {
        var i :| 0 <= i < |facts[1..]| && facts[1..][i] == fact;
        assert facts[i + 1] == fact;
      }
      DistinctIsIdentity(fold, facts[1..], seen + {fold(facts[0])});
    }
  }

  /** Filtering a list with distinct keys by `more` removes at most |more| facts, so a prefix that is
      |more| longer than the cap still fills the cap. */
  lemma {:induction false} FilteredPrefix(fold: string -> string, facts: seq<string>, more: set<string>, wanted: nat)
    requires DistinctKeys(fold, facts)
    ensures var kept := Without(fold, facts, more);
      var short := Without(fold, if |facts| > wanted + |more| then facts[..wanted + |more|] else facts, more);
      (if |kept| > wanted then kept[..wanted] else kept) == (if |short| > wanted then short[..wanted] else short)
    decreases |facts|
  {
    if |facts| > wanted + |more| {
      var size := wanted + |more|;
      assert facts == facts[..size] + facts[size..];
      WithoutOfConcat(fold, facts[..size], facts[size..], more);
      FilterRemovesFew(fold, facts[..size], more);
    }
  }

  lemma {:induction false} WithoutOfConcat(
    fold: string -> string, left: seq<string>, right: seq<string>, more: set<string>)
    ensures Without(fold, left + right, more) == Without(fold, left, more) + Without(fold, right, more)
  {
    if left == [] {
      assert left + right == right;
    } else {
      assert (left + right)[1..] == left[1..] + right;
      WithoutOfConcat(fold, left[1..], right, more);
    }
  }

  lemma {:induction false} FilterRemovesFew(fold: string -> string, facts: seq<string>, more: set<string>)
    requires DistinctKeys(fold, facts)
    ensures |Without(fold, facts, more)| + |more| >= |facts|
    decreases |facts|
  {
    if facts != [] {
      assert forall i :: 0 <= i < |facts| - 1 ==> facts[1..][i] == facts[i + 1];
      var key := fold(facts[0]);
      if key in more {
        FilterRemovesFew(fold, facts[1..], more - {key});
        assert |more| == |more - {key}| + 1;
        assert forall fact :: fact in facts[1..] ==> fold(fact) != key;
        FilterIgnores(fold, facts[1..], more, key);
      } else {
        FilterRemovesFew(fold, facts[1..], more);
      }
    }
  }

  lemma {:induction false} FilterIgnores(fold: string -> string, facts: seq<string>, more: set<string>, key: string)
    requires forall fact :: fact in facts ==> fold(fact) != key
    ensures Without(fold, facts, more) == Without(fold, facts, more - {key})
  {
    if facts != [] {
      assert facts[0] in facts && forall fact :: fact in facts[1..] ==> fact in facts;
      FilterIgnores(fold, facts[1..], more, key);
    }
  }

  lemma {:induction false} KeysOfDistinct(fold: string -> string, facts: seq<string>)
    requires DistinctKeys(fold, facts)
    ensures |Seen(fold, facts)| == |facts|
    decreases |facts|
  {
    if facts == [] {
      assert Seen(fold, facts) == {};
    } else {
      assert forall i :: 0 <= i < |facts| - 1 ==> facts[1..][i] == facts[i + 1];
      KeysOfDistinct(fold, facts[1..]);
      SeenSnoc(fold, facts[0], facts[1..]);
      assert facts == [facts[0]] + facts[1..];
      assert fold(facts[0]) !in Seen(fold, facts[1..]);
    }
  }

  lemma {:induction false} PrefixHasDistinctKeys(fold: string -> string, lines: seq<string>)
    ensures var kept := Normalize(fold, lines);
      DistinctKeys(fold, kept) && (forall fact :: fact in kept ==> fact != "") && Distinct(fold, kept, {}) == kept
  {
    DistinctHasDistinctKeys(fold, lines, {});
    var kept := Normalize(fold, lines);
    assert forall fact :: fact in kept ==> fact in Distinct(fold, lines, {});
    DistinctIsIdentity(fold, kept, {});
  }

  lemma {:induction false} ShortLeft(fold: string -> string, left: seq<string>, right: seq<string>)
    requires |Distinct(fold, left, {})| <= MAX_FACTS
    ensures var kept, more := Distinct(fold, left, {}), Seen(fold, Distinct(fold, left, {}));
      Cap(kept + Distinct(fold, Normalize(fold, right), more)) == Cap(kept + Distinct(fold, right, more))
  {
    var kept, wholeRight := Distinct(fold, left, {}), Distinct(fold, right, {});
    var more := Seen(fold, kept);
    assert {} + more == more;
    DistinctAgainstMore(fold, right, {}, more);
    PrefixHasDistinctKeys(fold, right);
    DistinctAgainstMore(fold, Normalize(fold, right), {}, more);
    DistinctHasDistinctKeys(fold, left, {});
    DistinctHasDistinctKeys(fold, right, {});
    KeysOfDistinct(fold, kept);
    FilteredPrefix(fold, wholeRight, more, MAX_FACTS - |kept|);
    SamePrefixSameCap(kept, Without(fold, Normalize(fold, right), more), Without(fold, wholeRight, more));
  }

  lemma {:induction false} SamePrefixSameCap(kept: seq<string>, one: seq<string>, other: seq<string>)
    requires |kept| <= MAX_FACTS
    requires var room := MAX_FACTS - |kept|;
      (if |one| > room then one[..room] else one) == (if |other| > room then other[..room] else other)
    ensures Cap(kept + one) == Cap(kept + other)
  {
    var room := MAX_FACTS - |kept|;
    assert Cap(kept + one) == kept + (if |one| > room then one[..room] else one);
    assert Cap(kept + other) == kept + (if |other| > room then other[..room] else other);
  }

  /** Capping each list before merging gives what capping the merged lists would have given. */
  lemma {:induction false} CappedMergeIsExact(fold: string -> string, left: seq<string>, right: seq<string>)
    ensures Normalize(fold, Normalize(fold, left) + Normalize(fold, right)) == Normalize(fold, left + right)
  {
    var keptLeft, keptRight := Normalize(fold, left), Normalize(fold, right);
    DistinctOfConcat(fold, left, right, {});
    DistinctOfConcat(fold, keptLeft, keptRight, {});
    PrefixHasDistinctKeys(fold, left);
    assert forall seen: set<string> :: {} + seen == seen;
    if |Distinct(fold, left, {})| <= MAX_FACTS {
      ShortLeft(fold, left, right);
    }
  }

  // ---------------------------------------------------------------------------------------
  // The merge over all chunk summaries.
  // ---------------------------------------------------------------------------------------

  datatype Summary = Summary(
    text: string,
    decisions: seq<string>,
    todos: seq<string>,
    constraints: seq<string>,
    userPreferences: seq<string>,
    openQuestions: seq<string>)

  const NO_SUMMARY := Summary("", [], [], [], [], [])

  /** `trim` strips surrounding white space. */
  function NormalizeSummary(fold: string -> string, trim: string -> string, s: Summary): Summary {
    Summary(trim(s.text), Normalize(fold, s.decisions), Normalize(fold, s.todos), Normalize(fold, s.constraints),
            Normalize(fold, s.userPreferences), Normalize(fold, s.openQuestions))
  }

  function Joined(base: Summary, incoming: Summary): Summary {
    Summary(if incoming.text == "" then base.text else incoming.text,
            base.decisions + incoming.decisions, base.todos + incoming.todos,
            base.constraints + incoming.constraints, base.userPreferences + incoming.userPreferences,
            base.openQuestions + incoming.openQuestions)
  }

  function MergeSummaries(fold: string -> string, trim: string -> string, base: Summary, incoming: Summary): Summary {
    NormalizeSummary(fold, trim, Joined(base, incoming))
  }

  function Concat(lists: seq<seq<string>>): seq<string> {
    if lists == [] then [] else Concat(lists[..|lists| - 1]) + lists[|lists| - 1]
  }

  /** `lists` of every chunk, one behind the other. */
  function Listed(chunks: seq<Summary>, list: Summary -> seq<string>): seq<string> {
    Concat(seq(|chunks|, i requires 0 <= i < |chunks| => list(chunks[i])))
  }

  lemma {:induction false} ListedSnoc(chunks: seq<Summary>, list: Summary -> seq<string>)
    requires chunks != []
    ensures Listed(chunks, list) == Listed(chunks[..|chunks| - 1], list) + list(chunks[|chunks| - 1])
  {
    var last := |chunks| - 1;
    var lists := seq(|chunks|, i requires 0 <= i < |chunks| => list(chunks[i]));
    assert lists[..last] == seq(last, i requires 0 <= i < last => list(chunks[..last][i]));
  }

  /** The facts are those of every chunk, list by list. */
  lemma {:induction false} AllFactsAreListed(chunks: seq<Summary>)
    ensures AllFacts(chunks).decisions == Listed(chunks, (s: Summary) => s.decisions)
    ensures AllFacts(chunks).todos == Listed(chunks, (s: Summary) => s.todos)
    ensures AllFacts(chunks).constraints == Listed(chunks, (s: Summary) => s.constraints)
    ensures AllFacts(chunks).userPreferences == Listed(chunks, (s: Summary) => s.userPreferences)
    ensures AllFacts(chunks).openQuestions == Listed(chunks, (s: Summary) => s.openQuestions)
  {
    if chunks != [] {
      AllFactsAreListed(chunks[..|chunks| - 1]);
      ListedSnoc(chunks, (s: Summary) => s.decisions);
      ListedSnoc(chunks, (s: Summary) => s.todos);
      ListedSnoc(chunks, (s: Summary) => s.constraints);
      ListedSnoc(chunks, (s: Summary) => s.userPreferences);
      ListedSnoc(chunks, (s: Summary) => s.openQuestions);
    }
  }

  /** The merged lists are the first eight distinct facts of the lists of all chunks. */
  ghost predicate KeepsFirstFacts(fold: string -> string, chunks: seq<Summary>, merged: Summary) {
    IsFirstEight(fold, Listed(chunks, (s: Summary) => s.decisions), merged.decisions) &&
    IsFirstEight(fold, Listed(chunks, (s: Summary) => s.todos), merged.todos) &&
    IsFirstEight(fold, Listed(chunks, (s: Summary) => s.constraints), merged.constraints) &&
    IsFirstEight(fold, Listed(chunks, (s: Summary) => s.userPreferences), merged.userPreferences) &&
    IsFirstEight(fold, Listed(chunks, (s: Summary) => s.openQuestions), merged.openQuestions)
  }

  lemma {:induction false} NormalizedFactsAreFirst(
    fold: string -> string, trim: string -> string, chunks: seq<Summary>, merged: Summary)
    requires SameFacts(merged, NormalizeSummary(fold, trim, AllFacts(chunks)))
    ensures KeepsFirstFacts(fold, chunks, merged)
  {
    var all := AllFacts(chunks);
    AllFactsAreListed(chunks);
    NormalizeKeepsFirsts(fold, all.decisions);
    NormalizeKeepsFirsts(fold, all.todos);
    NormalizeKeepsFirsts(fold, all.constraints);
    NormalizeKeepsFirsts(fold, all.userPreferences);
    NormalizeKeepsFirsts(fold, all.openQuestions);
  }

  /** The text of the last chunk that has one. */
  ghost predicate IsLatestText(trim: string -> string, chunks: seq<Summary>, text: string) {
    if forall i :: 0 <= i < |chunks| ==> trim(chunks[i].text) == "" then text == ""
    else exists i :: 0 <= i < |chunks| && text == trim(chunks[i].text) && text != "" && NoTextBehind(trim, chunks, i)
  }

  ghost predicate NoTextBehind(trim: string -> string, chunks: seq<Summary>, i: nat) {
    forall j :: i < j < |chunks| ==> trim(chunks[j].text) == ""
  }

  /** Stripping white space twice is stripping it once, and nothing can be stripped of no text. */
  ghost predicate Trims(trim: string -> string) {
    trim("") == "" && forall text :: trim(trim(text)) == trim(text)
  }

  lemma {:induction false} LatestTextSnoc(
    fold: string -> string, trim: string -> string, chunks: seq<Summary>, next: Summary, merged: Summary)
    requires Trims(trim) && IsLatestText(trim, chunks, merged.text)
    ensures var text := MergeSummaries(fold, trim, merged, NormalizeSummary(fold, trim, next)).text;
      IsLatestText(trim, chunks + [next], text)
  {
    var all, text := chunks + [next], MergeSummaries(fold, trim, merged, NormalizeSummary(fold, trim, next)).text;
    assert all[|chunks|] == next && forall i :: 0 <= i < |chunks| ==> all[i] == chunks[i];
    if trim(next.text) != "" {
      assert text == trim(all[|chunks|].text) && NoTextBehind(trim, all, |chunks|);
    } else if merged.text != "" {
      var i :| 0 <= i < |chunks| && merged.text == trim(chunks[i].text) && NoTextBehind(trim, chunks, i);
      assert text == trim(all[i].text) && NoTextBehind(trim, all, i);
    }
  }

  /** All facts of all chunk summaries, in order, nothing dropped. */
  function AllFacts(chunks: seq<Summary>): Summary {
    if chunks == [] then NO_SUMMARY else Joined(AllFacts(chunks[..|chunks| - 1]), chunks[|chunks| - 1])
  }

  ghost predicate SameFacts(one: Summary, other: Summary) {
    one.(text := "") == other.(text := "")
  }

  /** Folding the chunk summaries one by one, each already capped, keeps for every list exactly the
      first eight distinct facts of the whole sequence, and the last text there is. */
  method MergeChunkSummaries(fold: string -> string, trim: string -> string, chunks: seq<Summary>)
    returns (merged: Summary)
    ensures KeepsFirstFacts(fold, chunks, merged)
    ensures Trims(trim) ==> IsLatestText(trim, chunks, merged.text)
  {
    merged := NO_SUMMARY;
    for index := 0 to |chunks|
      invariant Folds(fold, trim, chunks[..index], merged)
    {
      var answered := NormalizeSummary(fold, trim, chunks[index]);
      assert chunks[..index + 1] == chunks[..index] + [chunks[index]];
      FoldsOneMore(fold, trim, chunks[..index], merged, chunks[index]);
      merged := MergeSummaries(fold, trim, merged, answered);
    }
    assert chunks[..|chunks|] == chunks;
    NormalizedFactsAreFirst(fold, trim, chunks, merged);
  }

  /** What the chunks read so far amount to. */
  ghost predicate Folds(fold: string -> string, trim: string -> string, chunks: seq<Summary>, merged: Summary) {
    SameFacts(merged, NormalizeSummary(fold, trim, AllFacts(chunks))) &&
    (Trims(trim) ==> IsLatestText(trim, chunks, merged.text))
  }

  lemma {:induction false} FoldsOneMore(
    fold: string -> string, trim: string -> string, chunks: seq<Summary>, merged: Summary, next: Summary)
    requires Folds(fold, trim, chunks, merged)
    ensures Folds(fold, trim, chunks + [next], MergeSummaries(fold, trim, merged, NormalizeSummary(fold, trim, next)))
  {
    assert (chunks + [next])[..|chunks|] == chunks;
    MergingOneMore(fold, trim, merged, AllFacts(chunks), next);
    if Trims(trim) { LatestTextSnoc(fold, trim, chunks, next, merged); }
  }

  lemma {:induction false} MergingOneMore(
    fold: string -> string, trim: string -> string, merged: Summary, before: Summary, next: Summary)
    requires SameFacts(merged, NormalizeSummary(fold, trim, before))
    ensures SameFacts(MergeSummaries(fold, trim, merged, NormalizeSummary(fold, trim, next)),
                      NormalizeSummary(fold, trim, Joined(before, next)))
  {
    CappedMergeIsExact(fold, before.decisions, next.decisions);
    CappedMergeIsExact(fold, before.todos, next.todos);
    CappedMergeIsExact(fold, before.constraints, next.constraints);
    CappedMergeIsExact(fold, before.userPreferences, next.userPreferences);
    CappedMergeIsExact(fold, before.openQuestions, next.openQuestions);
  }

  // ---------------------------------------------------------------------------------------
  // The summary text that is saved.
  // ---------------------------------------------------------------------------------------

  const UNAVAILABLE := "Context summary unavailable."

  function Bullets(facts: seq<string>): string {
    if facts == [] then "" else Bullets(facts[..|facts| - 1]) + "- " + facts[|facts| - 1] + "\n"
  }

  function Section(title: string, facts: seq<string>): string {
    if facts == [] then "" else title + ":\n" + Bullets(facts)
  }

  /** The lines of some facts, and of others behind them. */
  lemma {:induction false} BulletsOfConcat(left: seq<string>, right: seq<string>)
    ensures Bullets(left + right) == Bullets(left) + Bullets(right)
  {
    if right == [] {
      assert left + right == left;
    } else {
      var last := |right| - 1;
      var all, line := left + right, "- " + right[last] + "\n";
      BulletsOfConcat(left, right[..last]);
      assert all[..|all| - 1] == left + right[..last] && all[|all| - 1] == right[last];
      assert Bullets(all) == Bullets(left + right[..last]) + line;
      assert Bullets(right) == Bullets(right[..last]) + line;
    }
  }

  /** A section is its title and a line for each of its facts; without facts there is none. */
  lemma {:induction false} SectionListsFacts(title: string, first: string, others: seq<string>)
    ensures Section(title, []) == ""
    ensures Section(title, [first] + others) == title + ":\n" + ("- " + first + "\n" + Bullets(others))
  {
    BulletsOfConcat([first], others);
    assert [first][..0] == [] && "" + "- " == "- ";
    assert Bullets([first]) == "- " + first + "\n";
  }

  method AppendFactSection(written: string, title: string, facts: seq<string>) returns (text: string)
    ensures text == written + Section(title, facts)
  {
    if |facts| == 0 {
      return written;
    }
    text := written + title + ":\n";
    for index := 0 to |facts|
      invariant text == written + (title + ":\n" + Bullets(facts[..index]))
    {
      assert facts[..index + 1][..index] == facts[..index];
      text := text + "- " + facts[index] + "\n";
    }
    assert facts[..|facts|] == facts;
  }

  /** Every kept fact has its line under its title; and the text is never empty, so a saved summary is
      always shown as the header of the next prompt. */
  method FormatStructuredSummary(fold: string -> string, trim: string -> string, s: Summary) returns (text: string)
    ensures var kept := NormalizeSummary(fold, trim, s);
      var opening := if kept.text == "" then UNAVAILABLE else kept.text;
      opening != "" && opening <= text &&
      text[|opening|..] ==
        if kept.(text := "") == NO_SUMMARY then ""
        else "\n\nCritical facts:\n" + Section("Decisions", kept.decisions) + Section("Todos", kept.todos) +
             Section("Constraints", kept.constraints) + Section("User preferences", kept.userPreferences) +
             Section("Open questions", kept.openQuestions)
  {
    var kept := NormalizeSummary(fold, trim, s);
    var opening := if kept.text == "" then UNAVAILABLE else kept.text;
    if |kept.decisions| == 0 && |kept.todos| == 0 && |kept.constraints| == 0 && |kept.userPreferences| == 0 &&
       |kept.openQuestions| == 0 {
      return opening;
    }
    var facts := "\n\nCritical facts:\n";
    facts := AppendFactSection(facts, "Decisions", kept.decisions);
    facts := AppendFactSection(facts, "Todos", kept.todos);
    facts := AppendFactSection(facts, "Constraints", kept.constraints);
    facts := AppendFactSection(facts, "User preferences", kept.userPreferences);
    facts := AppendFactSection(facts, "Open questions", kept.openQuestions);
    text := opening + facts;
  }
}
