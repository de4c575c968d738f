/** Splitting the messages to summarize into chunks that fit the summarizer's budget. */
module SummaryChunks {
  import opened Messages

  const DEFAULT_CHUNK_TOKENS := 12000

  function Concat(chunks: seq<seq<ChatMessage>>): seq<ChatMessage> {
    if chunks == [] then [] else Concat(chunks[..|chunks| - 1]) + chunks[|chunks| - 1]
  }

  /** Within budget, or a single message that no split could make smaller. */
  ghost predicate Fits(tokens: ChatMessage -> nat, chunk: seq<ChatMessage>, budget: int) {
    |chunk| == 1 || (chunk != [] && Sum(tokens, chunk) <= budget)
  }

  ghost predicate AllFit(tokens: ChatMessage -> nat, chunks: seq<seq<ChatMessage>>, budget: int) {
    forall i :: 0 <= i < |chunks| ==> Fits(tokens, chunks[i], budget)
  }

  /** Contiguous chunks that fit and together are exactly `messages`. */
  ghost predicate IsPartition(
    tokens: ChatMessage -> nat, messages: seq<ChatMessage>, chunks: seq<seq<ChatMessage>>, budget: int)
  {
    AllFit(tokens, chunks, budget) && Concat(chunks) == messages
  }

  /** No way to fit chunks end to end covers more than `limit` messages with `count` of them. */
  ghost predicate ReachesAtMost(
    tokens: ChatMessage -> nat, messages: seq<ChatMessage>, budget: int, count: nat, limit: nat)
  {
    forall chunks :: AllFit(tokens, chunks, budget) && Concat(chunks) <= messages && |chunks| <= count ==>
      |Concat(chunks)| <= limit
  }

  lemma {:induction false} SumOfWider(
    tokens: ChatMessage -> nat, messages: seq<ChatMessage>, a: nat, b: nat, c: nat, d: nat)
    requires a <= b <= c <= d <= |messages|
    ensures Sum(tokens, messages[b..c]) <= Sum(tokens, messages[a..d])
  {
    assert messages[a..d] == messages[a..b] + messages[b..c] + messages[c..d];
    SumOfConcat(tokens, messages[a..b] + messages[b..c], messages[c..d]);
    SumOfConcat(tokens, messages[a..b], messages[b..c]);
  }

  /** Closing a full chunk at `index` keeps the greedy split ahead of every other one. */
  lemma {:induction false} ClosingStaysAhead(
    tokens: ChatMessage -> nat, messages: seq<ChatMessage>, budget: int, count: nat, start: nat, index: nat)
    requires ReachesAtMost(tokens, messages, budget, count, start)
    requires start < index < |messages| && Sum(tokens, messages[start..index + 1]) > budget
    ensures ReachesAtMost(tokens, messages, budget, count + 1, index)
  {
    forall chunks | AllFit(tokens, chunks, budget) && Concat(chunks) <= messages && |chunks| <= count + 1
      ensures |Concat(chunks)| <= index
    {
      if chunks != [] {
        var before, last := chunks[..|chunks| - 1], chunks[|chunks| - 1];
        var reached := |Concat(before)|;
        assert Concat(before) <= messages;
        assert reached <= start;
        assert last == messages[reached..|Concat(chunks)|];
        if |Concat(chunks)| > index {
          SumOfWider(tokens, messages, reached, start, index + 1, |Concat(chunks)|);
          assert false;
        }
      }
    }
  }

  lemma {:induction false} ExtendChunk(tokens: ChatMessage -> nat, chunk: seq<ChatMessage>, next: ChatMessage)
    ensures Sum(tokens, chunk + [next]) == Sum(tokens, chunk) + tokens(next)
  {
    SumOfConcat(tokens, chunk, [next]);
  }

  /** The chunks closed and the chunk being filled once all of `messages` have been read. */
  function Greedy(
    tokens: ChatMessage -> nat, messages: seq<ChatMessage>, budget: int): (seq<seq<ChatMessage>>, seq<ChatMessage>) {
    if messages == [] then ([], [])
    else
      var next, before := messages[|messages| - 1], Greedy(tokens, messages[..|messages| - 1], budget);
      if before.1 != [] && Sum(tokens, before.1) + tokens(next) > budget then (before.0 + [before.1], [next])
      else (before.0, before.1 + [next])
  }

  /** The closed chunks fit, the open one does too, and no other split gets further with as many. */
  ghost predicate Ahead(
    tokens: ChatMessage -> nat, messages: seq<ChatMessage>, budget: int, read: nat,
    chunks: seq<seq<ChatMessage>>, current: seq<ChatMessage>)
  {
    |current| <= read <= |messages| && current == messages[read - |current|..read] &&
    (read > 0 ==> Fits(tokens, current, budget)) &&
    AllFit(tokens, chunks, budget) && Concat(chunks) == messages[..read - |current|] &&
    ReachesAtMost(tokens, messages, budget, |chunks|, read - |current|)
  }

  lemma {:induction false} ClosingKeepsAhead(
    tokens: ChatMessage -> nat, messages: seq<ChatMessage>, budget: int, read: nat,
    chunks: seq<seq<ChatMessage>>, current: seq<ChatMessage>)
    requires Ahead(tokens, messages, budget, read, chunks, current) && 0 < read < |messages|
    requires Sum(tokens, current) + tokens(messages[read]) > budget
    ensures Ahead(tokens, messages, budget, read + 1, chunks + [current], [messages[read]])
  {
    var start := read - |current|;
    ExtendChunk(tokens, current, messages[read]);
    assert current + [messages[read]] == messages[start..read + 1];
    ClosingStaysAhead(tokens, messages, budget, |chunks|, start, read);
    assert messages[..start] + current == messages[..read];
  }

  lemma {:induction false} FillingKeepsAhead(
    tokens: ChatMessage -> nat, messages: seq<ChatMessage>, budget: int, read: nat,
    chunks: seq<seq<ChatMessage>>, current: seq<ChatMessage>)
    requires Ahead(tokens, messages, budget, read, chunks, current) && read < |messages|
    requires current != [] ==> Sum(tokens, current) + tokens(messages[read]) <= budget
    ensures Ahead(tokens, messages, budget, read + 1, chunks, current + [messages[read]])
  {
    ExtendChunk(tokens, current, messages[read]);
    assert current + [messages[read]] == messages[read - |current|..read + 1];
  }

  lemma {:induction false} GreedyReads(tokens: ChatMessage -> nat, messages: seq<ChatMessage>, budget: int, read: nat)
    requires read < |messages|
    ensures var before := Greedy(tokens, messages[..read], budget);
      Greedy(tokens, messages[..read + 1], budget) ==
      if before.1 != [] && Sum(tokens, before.1) + tokens(messages[read]) > budget
      then (before.0 + [before.1], [messages[read]]) else (before.0, before.1 + [messages[read]])
  {
    assert messages[..read + 1][..read] == messages[..read];
  }

  lemma {:induction false} NothingRead(tokens: ChatMessage -> nat, messages: seq<ChatMessage>, budget: int)
    ensures Ahead(tokens, messages, budget, 0, [], [])
  {
  }

  lemma {:induction false} GreedyIsAhead(tokens: ChatMessage -> nat, messages: seq<ChatMessage>, budget: int, read: nat)
    requires read <= |messages|
    ensures var greedy := Greedy(tokens, messages[..read], budget);
      Ahead(tokens, messages, budget, read, greedy.0, greedy.1)
  {
    if read > 0 {
      var before := Greedy(tokens, messages[..read - 1], budget);
      GreedyIsAhead(tokens, messages, budget, read - 1);
      GreedyReads(tokens, messages, budget, read - 1);
      if before.1 != [] && Sum(tokens, before.1) + tokens(messages[read - 1]) > budget {
        ClosingKeepsAhead(tokens, messages, budget, read - 1, before.0, before.1);
      } else {
        FillingKeepsAhead(tokens, messages, budget, read - 1, before.0, before.1);
      }
    } else {
      NothingRead(tokens, messages, budget);
    }
  }

  lemma {:induction false} GreedyIsLeast(tokens: ChatMessage -> nat, messages: seq<ChatMessage>, budget: int)
    requires messages != []
    ensures var greedy := Greedy(tokens, messages, budget);
      greedy.1 != [] && IsPartition(tokens, messages, greedy.0 + [greedy.1], budget) &&
      forall other :: IsPartition(tokens, messages, other, budget) ==> |greedy.0| + 1 <= |other|
  {
    GreedyIsAhead(tokens, messages, budget, |messages|);
    assert messages[..|messages|] == messages;
    var greedy := Greedy(tokens, messages, budget);
  }

  /** The greedy split is a partition, and no partition has fewer chunks. */
  method SplitMessagesByTokenBudget(tokens: ChatMessage -> nat, messages: seq<ChatMessage>, maxTokens: int)
    returns (chunks: seq<seq<ChatMessage>>)
    ensures var budget := if maxTokens <= 0 then DEFAULT_CHUNK_TOKENS else maxTokens;
      IsPartition(tokens, messages, chunks, budget) &&
      forall other :: IsPartition(tokens, messages, other, budget) ==> |chunks| <= |other|
  {
    chunks := [];
    if |messages| == 0 {
      return;
    }
    var budget := if maxTokens <= 0 then DEFAULT_CHUNK_TOKENS else maxTokens;
    var currentChunk: seq<ChatMessage> := [];
    var currentTokens := 0;
    for index := 0 to |messages|
      invariant (chunks, currentChunk) == Greedy(tokens, messages[..index], budget)
      invariant currentTokens == Sum(tokens, currentChunk)
    {
      var messageTokens := tokens(messages[index]);
      GreedyReads(tokens, messages, budget, index);
      ExtendChunk(tokens, currentChunk, messages[index]);
      if |currentChunk| > 0 && currentTokens + messageTokens > budget {
        chunks := chunks + [currentChunk];
        currentChunk := [];
        currentTokens := 0;
        assert [] + [messages[index]] == [messages[index]];
        assert Sum(tokens, [messages[index]]) == tokens(messages[index]) + Sum(tokens, []);
      }
      currentChunk := currentChunk + [messages[index]];
      currentTokens := currentTokens + messageTokens;
    }
    assert messages[..|messages|] == messages;
    GreedyIsLeast(tokens, messages, budget);
    if |currentChunk| > 0 {
      chunks := chunks + [currentChunk];
    }
  }
}
