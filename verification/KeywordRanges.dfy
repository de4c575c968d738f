/** Keyword matches of one memory item, widened by context and merged into snippets. */
module KeywordRanges {

  datatype LineRange = LineRange(start: nat, end: nat, score: real)

  /** How many query tokens the title and each line contain; an item has at least one line. */
  datatype Item = Item(titleHits: nat, hits: seq<nat>)

  ghost predicate Valid(item: Item) {
    item.hits != []
  }

  ghost predicate Has(r: LineRange, line: nat) {
    r.start <= line <= r.end
  }

  ghost predicate Covers(ranges: seq<LineRange>, line: nat) {
    exists i :: 0 <= i < |ranges| && Has(ranges[i], line)
  }

  ghost predicate Inside(r: LineRange, m: LineRange) {
    m.start <= r.start && r.end <= m.end
  }

  ghost predicate Nonempty(ranges: seq<LineRange>) {
    forall i :: 0 <= i < |ranges| ==> ranges[i].start <= ranges[i].end
  }

  /** Sorted, and at least one line between any two. */
  ghost predicate Apart(merged: seq<LineRange>) {
    Nonempty(merged) && forall i, j :: 0 <= i < j < |merged| ==> merged[i].end + 1 < merged[j].start
  }

  /** The greatest score of the ranges inside `m`. */
  ghost predicate ScoredBy(m: LineRange, ranges: seq<LineRange>) {
    (exists i :: 0 <= i < |ranges| && Inside(ranges[i], m) && ranges[i].score == m.score) &&
    forall i :: 0 <= i < |ranges| && Inside(ranges[i], m) ==> ranges[i].score <= m.score
  }

  ghost predicate Decomposes(merged: seq<LineRange>, ranges: seq<LineRange>) {
    Apart(merged) &&
    (forall line: nat :: Covers(merged, line) <==> Covers(ranges, line)) &&
    forall k :: 0 <= k < |merged| ==> ScoredBy(merged[k], ranges)
  }

  // ---------------------------------------------------------------------------------------
  // Merging.
  // ---------------------------------------------------------------------------------------

  function Absorbed(merged: seq<LineRange>, current: LineRange): seq<LineRange>
    requires merged != []
  {
    if current.start <= merged[|merged| - 1].end + 1
    then merged[|merged| - 1 := Extended(merged[|merged| - 1], current)]
    else merged + [current]
  }

  lemma {:induction false} Absorbing(merged: seq<LineRange>, ranges: seq<LineRange>, current: LineRange)
    requires merged != [] && Decomposes(merged, ranges) && Nonempty(ranges) && current.start <= current.end
    requires merged[|merged| - 1].start <= current.start
    ensures Decomposes(Absorbed(merged, current), ranges + [current])
    ensures Absorbed(merged, current)[|Absorbed(merged, current)| - 1].start <= current.start
  {
    var last := merged[|merged| - 1];
    if current.start <= last.end + 1 {
      TouchingIsAbsorbed(merged, ranges, current);
      assert merged[|merged| - 1 := Extended(last, current)] == merged[..|merged| - 1] + [Extended(last, current)];
    } else {
      DistantIsAppended(merged, ranges, current);
    }
  }

  function Extended(last: LineRange, current: LineRange): LineRange {
    LineRange(last.start, if current.end > last.end then current.end else last.end,
              if current.score > last.score then current.score else last.score)
  }

  function Merged(ranges: seq<LineRange>): seq<LineRange>
    requires ranges != []
    ensures Merged(ranges) != []
  {
    var last := |ranges| - 1;
    if last == 0 then ranges else Absorbed(Merged(ranges[..last]), ranges[last])
  }

  method MergeRanges(ranges: seq<LineRange>) returns (merged: seq<LineRange>)
    requires ranges != [] && Nonempty(ranges) && StartsSorted(ranges)
    ensures merged == Merged(ranges) && Decomposes(merged, ranges)
  {
    merged := [ranges[0]];
    assert ranges[..1] == [ranges[0]];
    for n := 1 to |ranges|
      invariant merged == Merged(ranges[..n])
    {
      var current, last := ranges[n], merged[|merged| - 1];
      assert ranges[..n + 1][..n] == ranges[..n];
      if current.start <= last.end + 1 {
        if current.end > last.end {
          last := last.(end := current.end);
        }
        if current.score > last.score {
          last := last.(score := current.score);
        }
        merged := merged[|merged| - 1 := last];
      } else {
        merged := merged + [current];
      }
    }
    assert ranges[..|ranges|] == ranges;
    MergedDecomposes(ranges);
  }

  ghost predicate StartsSorted(ranges: seq<LineRange>) {
    forall i, j :: 0 <= i < j < |ranges| ==> ranges[i].start <= ranges[j].start
  }

  /** `merged` decomposes the ranges read so far, of which the last starts latest. */
  ghost predicate Keeps(merged: seq<LineRange>, ranges: seq<LineRange>) {
    ranges != [] && merged != [] && Decomposes(merged, ranges) &&
    merged[|merged| - 1].start <= ranges[|ranges| - 1].start
  }

  lemma {:induction false} KeepsAbsorbing(merged: seq<LineRange>, ranges: seq<LineRange>, current: LineRange)
    requires Keeps(merged, ranges) && Nonempty(ranges) && current.start <= current.end
    requires ranges[|ranges| - 1].start <= current.start
    ensures Keeps(Absorbed(merged, current), ranges + [current])
  {
    Absorbing(merged, ranges, current);
  }

  lemma {:induction false} MergedDecomposes(ranges: seq<LineRange>)
    requires ranges != [] && Nonempty(ranges) && StartsSorted(ranges)
    ensures Keeps(Merged(ranges), ranges)
  {
    var last := |ranges| - 1;
    if last == 0 {
      assert ranges == [ranges[0]];
    } else {
      var before, current := ranges[..last], ranges[last];
      assert ranges == before + [current];
      MergedDecomposes(before);
      KeepsAbsorbing(Merged(before), before, current);
      assert Merged(ranges) == Absorbed(Merged(before), current);
    }
  }

  lemma {:induction false} CoversSnoc(ranges: seq<LineRange>, r: LineRange, line: nat)
    ensures Covers(ranges + [r], line) <==> Covers(ranges, line) || Has(r, line)
  {
    var all := ranges + [r];
    assert all[|ranges|] == r;
    if Covers(ranges, line) {
      var i :| 0 <= i < |ranges| && Has(ranges[i], line);
      assert all[i] == ranges[i];
    }
    if Covers(all, line) {
      var i :| 0 <= i < |all| && Has(all[i], line);
      if i < |ranges| { assert all[i] == ranges[i]; }
    }
  }

  /** A range lies inside the merged range that has its first line. */
  lemma {:induction false} LiesInside(merged: seq<LineRange>, ranges: seq<LineRange>, i: nat) returns (k: nat)
    requires Decomposes(merged, ranges) && Nonempty(ranges) && i < |ranges|
    ensures k < |merged| && Inside(ranges[i], merged[k])
  {
    assert Has(ranges[i], ranges[i].start);
    assert Covers(merged, ranges[i].start);
    k :| 0 <= k < |merged| && Has(merged[k], ranges[i].start);
    var line := merged[k].end + 1;
    assert !Covers(ranges, line);
    assert !Has(ranges[i], line);
  }

  lemma {:induction false} TouchingIsAbsorbed(merged: seq<LineRange>, ranges: seq<LineRange>, current: LineRange)
    requires merged != [] && Decomposes(merged, ranges) && Nonempty(ranges) && current.start <= current.end
    requires merged[|merged| - 1].start <= current.start <= merged[|merged| - 1].end + 1
    ensures Decomposes(merged[..|merged| - 1] + [Extended(merged[|merged| - 1], current)], ranges + [current])
  {
    var front, last := merged[..|merged| - 1], merged[|merged| - 1];
    var grown, all := Extended(last, current), ranges + [current];
    var next := front + [grown];
    assert merged == front + [last];
    forall line: nat ensures Covers(next, line) <==> Covers(all, line) {
      CoversSnoc(front, grown, line);
      CoversSnoc(front, last, line);
      CoversSnoc(ranges, current, line);
      assert Has(grown, line) <==> Has(last, line) || Has(current, line);
      assert Covers(merged, line) <==> Covers(ranges, line);
    }
    forall k | 0 <= k < |next| ensures ScoredBy(next[k], all) {
      if k < |front| {
        StillScored(merged[k], ranges, current);
      } else {
        GrownIsScored(merged, ranges, current);
      }
    }
  }

  lemma {:induction false} StillScored(m: LineRange, ranges: seq<LineRange>, current: LineRange)
    requires ScoredBy(m, ranges) && m.end < current.end
    ensures ScoredBy(m, ranges + [current])
  {
    var i :| 0 <= i < |ranges| && Inside(ranges[i], m) && ranges[i].score == m.score;
    assert (ranges + [current])[i] == ranges[i];
  }

  lemma {:induction false} GrownIsScored(merged: seq<LineRange>, ranges: seq<LineRange>, current: LineRange)
    requires merged != [] && Decomposes(merged, ranges) && Nonempty(ranges) && current.start <= current.end
    requires merged[|merged| - 1].start <= current.start <= merged[|merged| - 1].end + 1
    ensures ScoredBy(Extended(merged[|merged| - 1], current), ranges + [current])
  {
    var last := merged[|merged| - 1];
    var grown, all := Extended(last, current), ranges + [current];
    assert ScoredBy(last, ranges);
    var best :| 0 <= best < |ranges| && Inside(ranges[best], last) && ranges[best].score == last.score;
    assert all[best] == ranges[best] && all[|ranges|] == current;
    assert Inside(all[best], grown) && Inside(all[|ranges|], grown);
    forall i | 0 <= i < |all| && Inside(all[i], grown) ensures all[i].score <= grown.score {
      if i < |ranges| {
        var k := LiesInside(merged, ranges, i);
        assert k == |merged| - 1;
      }
    }
  }

  lemma {:induction false} DistantIsAppended(merged: seq<LineRange>, ranges: seq<LineRange>, current: LineRange)
    requires merged != [] && Decomposes(merged, ranges) && Nonempty(ranges) && current.start <= current.end
    requires merged[|merged| - 1].end + 1 < current.start
    ensures Decomposes(merged + [current], ranges + [current])
  {
    var next, all := merged + [current], ranges + [current];
    forall i, j | 0 <= i < j < |next| ensures next[i].end + 1 < next[j].start {
      if j == |merged| && i < |merged| - 1 {
        assert merged[i].end + 1 < merged[|merged| - 1].start;
      }
    }
    forall line: nat ensures Covers(next, line) <==> Covers(all, line) {
      CoversSnoc(merged, current, line);
      CoversSnoc(ranges, current, line);
      assert Covers(merged, line) <==> Covers(ranges, line);
    }
    forall k | 0 <= k < |next| ensures ScoredBy(next[k], all) {
      if k < |merged| {
        assert merged[k].end < current.end by {
          if k < |merged| - 1 { assert merged[k].end + 1 < merged[|merged| - 1].start; }
        }
        StillScored(merged[k], ranges, current);
      } else {
        forall i | 0 <= i < |all| && Inside(all[i], current) ensures all[i].score <= current.score {
          if i < |ranges| {
            var other := LiesInside(merged, ranges, i);
          }
        }
        assert all[|ranges|] == current;
      }
    }
  }

  // ---------------------------------------------------------------------------------------
  // There is only one decomposition, whatever order a sort leaves equal starts in.
  // ---------------------------------------------------------------------------------------

  ghost predicate SameRanges(a: seq<LineRange>, b: seq<LineRange>) {
    forall r: LineRange :: r in a <==> r in b
  }

  lemma {:induction false} FirstAgree(
    a: seq<LineRange>, b: seq<LineRange>, ranges: seq<LineRange>, other: seq<LineRange>, i: nat)
    requires Decomposes(a, ranges) && Decomposes(b, other) && SameRanges(ranges, other)
    requires i < |a| && i <= |b| && a[..i] == b[..i]
    ensures i < |b| && a[i].start >= b[i].start
  {
    var line := a[i].start;
    assert Has(a[i], line);
    assert Covers(a, line) && Covers(ranges, line);
    CoverAgrees(ranges, other, line);
    var k :| 0 <= k < |b| && Has(b[k], line);
    EarlierDiffer(a, b, i);
    assert k > i ==> b[i].end + 1 < b[k].start;
  }

  lemma {:induction false} EarlierDiffer(a: seq<LineRange>, b: seq<LineRange>, i: nat)
    requires Apart(a) && i < |a| && i <= |b| && a[..i] == b[..i]
    ensures forall k :: 0 <= k < i ==> !Has(b[k], a[i].start)
  {
    forall k | 0 <= k < i ensures !Has(b[k], a[i].start) {
      assert a[..i][k] == a[k] && b[..i][k] == b[k];
    }
  }

  lemma {:induction false} CoverAgrees(ranges: seq<LineRange>, other: seq<LineRange>, line: nat)
    requires SameRanges(ranges, other) && Covers(ranges, line)
    ensures Covers(other, line)
  {
    var i :| 0 <= i < |ranges| && Has(ranges[i], line);
    assert ranges[i] in other;
  }

  lemma {:induction false} EndAgrees(
    a: seq<LineRange>, b: seq<LineRange>, ranges: seq<LineRange>, other: seq<LineRange>, i: nat)
    requires Decomposes(a, ranges) && Decomposes(b, other) && SameRanges(ranges, other)
    requires i < |a| && i < |b| && a[i].start == b[i].start
    ensures a[i].end <= b[i].end
  {
    var line := b[i].end + 1;
    assert a[i].end > b[i].end ==> Has(a[i], line);
    assert Covers(a, line) ==> Covers(ranges, line);
    if Covers(ranges, line) { CoverAgrees(ranges, other, line); }
  }

  lemma {:induction false} ScoreAgrees(m: LineRange, n: LineRange, ranges: seq<LineRange>, other: seq<LineRange>)
    requires ScoredBy(m, ranges) && ScoredBy(n, other) && SameRanges(ranges, other)
    requires m.start == n.start && m.end == n.end
    ensures m.score <= n.score
  {
    var i :| 0 <= i < |ranges| && Inside(ranges[i], m) && ranges[i].score == m.score;
    assert ranges[i] in other;
    var j :| 0 <= j < |other| && other[j] == ranges[i];
    assert Inside(other[j], n);
  }

  lemma {:induction false} PrefixesAgree(
    a: seq<LineRange>, b: seq<LineRange>, ranges: seq<LineRange>, other: seq<LineRange>, i: nat)
    requires Decomposes(a, ranges) && Decomposes(b, other) && SameRanges(ranges, other)
    requires i <= |a|
    ensures i <= |b| && a[..i] == b[..i]
  {
    if i > 0 {
      PrefixesAgree(a, b, ranges, other, i - 1);
      FirstAgree(a, b, ranges, other, i - 1);
      FirstAgree(b, a, other, ranges, i - 1);
      EndAgrees(a, b, ranges, other, i - 1);
      EndAgrees(b, a, other, ranges, i - 1);
      ScoreAgrees(a[i - 1], b[i - 1], ranges, other);
      ScoreAgrees(b[i - 1], a[i - 1], other, ranges);
      assert a[..i] == a[..i - 1] + [a[i - 1]] && b[..i] == b[..i - 1] + [b[i - 1]];
    }
  }

  /** Sorting may leave equal starts in any order: the merged ranges are the same. */
  lemma {:induction false} DecompositionIsUnique(
    a: seq<LineRange>, b: seq<LineRange>, ranges: seq<LineRange>, other: seq<LineRange>)
    requires Decomposes(a, ranges) && Decomposes(b, other) && SameRanges(ranges, other)
    ensures a == b
  {
    PrefixesAgree(a, b, ranges, other, |a|);
    PrefixesAgree(b, a, other, ranges, |b|);
  }

  // ---------------------------------------------------------------------------------------
  // Scoring and widening.
  // ---------------------------------------------------------------------------------------

  datatype ScoredLine = TitleLine(score: real) | ContentLine(line: nat, score: real)

  function BaseScore(item: Item): real
    requires item.hits != []
  {
    1.0 / |item.hits| as real
  }

  function Score(hits: nat, perHit: real): real {
    hits as real * perHit
  }

  /** The matching lines among the first `count`, behind the title if that matches. */
  function Scored(item: Item, count: nat): seq<ScoredLine>
    requires count <= |item.hits| && item.hits != []
  {
    if count == 0 then
      (if item.titleHits > 0 then [TitleLine(Score(item.titleHits, BaseScore(item) * 2.0))] else [])
    else
      Scored(item, count - 1) +
      (if item.hits[count - 1] > 0
       then [ContentLine(count - 1, Score(item.hits[count - 1], BaseScore(item)))] else [])
  }

  method ScoreLines(item: Item) returns (scored: seq<ScoredLine>)
    requires Valid(item)
    ensures scored == Scored(item, |item.hits|)
  {
    var baseScore := BaseScore(item);
    scored := [];
    var titleScore := Score(item.titleHits, baseScore * 2.0);
    if item.titleHits > 0 {
      scored := [TitleLine(titleScore)];
    }
    for line := 0 to |item.hits|
      invariant scored == Scored(item, line)
    {
      if item.hits[line] > 0 {
        scored := scored + [ContentLine(line, Score(item.hits[line], baseScore))];
      } else {
        assert scored + [] == scored;
      }
    }
  }

  function Widened(scored: ScoredLine, lines: nat, context: nat): (r: LineRange)
    requires lines > 0 && (scored.ContentLine? ==> scored.line < lines)
    ensures r.start <= r.end < lines && r.score == scored.score
    ensures forall line: nat :: Has(r, line) <==>
      line < lines &&
      (scored.TitleLine? ==> line <= context) &&
      (scored.ContentLine? ==> line <= scored.line + context && scored.line <= line + context)
  {
    match scored
    case TitleLine(score) => LineRange(0, if context >= lines then lines - 1 else context, score)
    case ContentLine(line, score) =>
      LineRange(if line < context then 0 else line - context,
                if line + context >= lines then lines - 1 else line + context, score)
  }

  ghost predicate LinesWithin(scored: seq<ScoredLine>, lines: nat) {
    lines > 0 && forall i :: 0 <= i < |scored| && scored[i].ContentLine? ==> scored[i].line < lines
  }

  method BuildRanges(scored: seq<ScoredLine>, lines: nat, context: nat) returns (ranges: seq<LineRange>)
    requires LinesWithin(scored, lines)
    ensures |ranges| == |scored| && forall i :: 0 <= i < |scored| ==> ranges[i] == Widened(scored[i], lines, context)
  {
    ranges := [];
    for index := 0 to |scored|
      invariant |ranges| == index && forall i :: 0 <= i < index ==> ranges[i] == Widened(scored[i], lines, context)
    {
      match scored[index] {
        case TitleLine(score) =>
          var end := context;
          if end >= lines { end := lines - 1; }
          ranges := ranges + [LineRange(0, end, score)];
        case ContentLine(line, score) =>
          var start := if line < context then 0 else line - context;
          var end := line + context;
          if end >= lines { end := lines - 1; }
          ranges := ranges + [LineRange(start, end, score)];
      }
    }
  }

  lemma {:induction false} ScoredAreMatches(item: Item, count: nat, s: ScoredLine)
    requires count <= |item.hits| && item.hits != []
    ensures s in Scored(item, count) <==>
      if s.TitleLine? then item.titleHits > 0 && s.score == Score(item.titleHits, BaseScore(item) * 2.0)
      else s.line < count && item.hits[s.line] > 0 && s.score == Score(item.hits[s.line], BaseScore(item))
  {
    if count > 0 { ScoredAreMatches(item, count - 1, s); }
  }

  /** A match scores its hits shared out over the lines of the item, and twice that in the title. */
  lemma {:induction false} ScoresAreShares(item: Item, s: ScoredLine)
    requires Valid(item) && s in Scored(item, |item.hits|)
    ensures s.TitleLine? ==> item.titleHits > 0 && s.score * |item.hits| as real == 2.0 * item.titleHits as real
    ensures s.ContentLine? ==>
      s.line < |item.hits| && item.hits[s.line] > 0 && s.score * |item.hits| as real == item.hits[s.line] as real
  {
    ScoredAreMatches(item, |item.hits|, s);
    assert BaseScore(item) * |item.hits| as real == 1.0;
    if s.ContentLine? {
      assert s.score * |item.hits| as real == item.hits[s.line] as real * (BaseScore(item) * |item.hits| as real);
    } else {
      assert s.score * |item.hits| as real == 2.0 * item.titleHits as real * (BaseScore(item) * |item.hits| as real);
    }
  }

  /** A line within `context` lines of a match, the title counting as the first line. */
  ghost predicate Near(item: Item, context: nat, line: nat) {
    line < |item.hits| &&
    ((item.titleHits > 0 && line <= context) ||
     exists m :: 0 <= m < |item.hits| && item.hits[m] > 0 && line <= m + context && m <= line + context)
  }

  ghost predicate InOne(merged: seq<LineRange>, line: nat) {
    exists k :: 0 <= k < |merged| && Has(merged[k], line) &&
      forall j :: 0 <= j < |merged| && Has(merged[j], line) ==> j == k
  }

  /** `order` is any order of the scored lines, and `sorted` any order by start of their ranges. */
  ghost predicate Searched(item: Item, context: nat, order: seq<ScoredLine>, sorted: seq<LineRange>)
    requires Valid(item)
  {
    (forall s :: s in order <==> s in Scored(item, |item.hits|)) && LinesWithin(order, |item.hits|) &&
    (forall i :: 0 <= i < |order| ==> Widened(order[i], |item.hits|, context) in sorted) &&
    (forall i :: 0 <= i < |sorted| ==>
      exists j :: 0 <= j < |order| && sorted[i] == Widened(order[j], |item.hits|, context)) &&
    StartsSorted(sorted)
  }

  lemma {:induction false} CoveredIsNear(
    item: Item, context: nat, order: seq<ScoredLine>, sorted: seq<LineRange>, line: nat)
    requires Valid(item) && Searched(item, context, order, sorted) && Covers(sorted, line)
    ensures Near(item, context, line)
  {
    var i :| 0 <= i < |sorted| && Has(sorted[i], line);
    var j :| 0 <= j < |order| && sorted[i] == Widened(order[j], |item.hits|, context);
    assert order[j] in order;
    ScoredAreMatches(item, |item.hits|, order[j]);
    assert order[j].ContentLine? ==> item.hits[order[j].line] > 0;
  }

  lemma {:induction false} SortedCoversNearLines(
    item: Item, context: nat, order: seq<ScoredLine>, sorted: seq<LineRange>, line: nat)
    requires Valid(item) && Searched(item, context, order, sorted)
    ensures Covers(sorted, line) <==> Near(item, context, line)
  {
    if Covers(sorted, line) {
      CoveredIsNear(item, context, order, sorted, line);
    }
    if Near(item, context, line) {
      var s: ScoredLine;
      if item.titleHits > 0 && line <= context {
        s := TitleLine(Score(item.titleHits, BaseScore(item) * 2.0));
      } else {
        var m :| 0 <= m < |item.hits| && item.hits[m] > 0 && line <= m + context && m <= line + context;
        s := ContentLine(m, Score(item.hits[m], BaseScore(item)));
      }
      ScoredAreMatches(item, |item.hits|, s);
    }
  }

  /** Whatever the order of equal scores and starts: a line is in a snippet if and only if it is near a
      match, and then it is in exactly one. */
  lemma {:induction false} EveryMatchIsInOneSnippet(
    item: Item, context: nat, order: seq<ScoredLine>, sorted: seq<LineRange>)
    requires Valid(item) && Searched(item, context, order, sorted) && sorted != []
    ensures Decomposes(Merged(sorted), sorted)
    ensures forall k :: 0 <= k < |Merged(sorted)| ==> Merged(sorted)[k].end < |item.hits|
    ensures forall line: nat :: Covers(Merged(sorted), line) <==> Near(item, context, line)
    ensures forall line: nat :: Near(item, context, line) ==> InOne(Merged(sorted), line)
    ensures forall line :: 0 <= line < |item.hits| && item.hits[line] > 0 ==> InOne(Merged(sorted), line)
  {
    var merged := Merged(sorted);
    assert Nonempty(sorted);
    MergedDecomposes(sorted);
    forall line: nat ensures Covers(merged, line) <==> Near(item, context, line) {
      SortedCoversNearLines(item, context, order, sorted, line);
      assert Covers(merged, line) <==> Covers(sorted, line);
    }
    forall k | 0 <= k < |merged| ensures merged[k].end < |item.hits| {
      assert Has(merged[k], merged[k].end);
      assert Covers(merged, merged[k].end);
    }
    forall line: nat | Near(item, context, line) ensures InOne(merged, line) {
      CoveredOnce(merged, line);
    }
    forall line | 0 <= line < |item.hits| && item.hits[line] > 0 ensures InOne(merged, line) {
      assert Near(item, context, line);
    }
  }

  lemma {:induction false} CoveredOnce(merged: seq<LineRange>, line: nat)
    requires Apart(merged) && Covers(merged, line)
    ensures InOne(merged, line)
  {
    var k :| 0 <= k < |merged| && Has(merged[k], line);
    forall j | 0 <= j < |merged| && Has(merged[j], line) ensures j == k {
    }
  }
}
