/** Where compaction may cut a prompt: behind enough of the past, and never inside a tool turn. */
module KeepBoundary {
  import opened Messages
  import opened PromptRepair
  import opened RepairNormalForm

  datatype Limits = Limits(minKeepMessages: int, minKeepRecentTokens: int)

  /** A cut that neither starts on a tool result nor directly follows an assistant's tool calls. */
  predicate SafeCut(messages: seq<ChatMessage>, index: nat)
    requires index < |messages|
  {
    index > 0 ==>
      messages[index].role != Tool &&
      !(messages[index - 1].role == Assistant && messages[index - 1].toolCalls != [])
  }

  function LastSafeCut(messages: seq<ChatMessage>, limit: nat): (index: nat)
    requires limit < |messages|
    ensures index <= limit && SafeCut(messages, index)
    ensures forall k :: index < k <= limit ==> !SafeCut(messages, k)
  {
    if SafeCut(messages, limit) then limit else LastSafeCut(messages, limit - 1)
  }

  function KeepBoundary(messages: seq<ChatMessage>, minKeep: int): nat
    requires minKeep >= 1 || |messages| <= minKeep
  {
    if |messages| <= minKeep then 0 else LastSafeCut(messages, |messages| - minKeep)
  }

  /** Keeping none of some messages would read one past the end, so callers keep at least one. */
  method FindKeepBoundary(messages: seq<ChatMessage>, minKeep: int) returns (index: nat)
    requires minKeep >= 1 || |messages| <= minKeep
    ensures index == KeepBoundary(messages, minKeep)
  {
    if |messages| <= minKeep {
      return 0;
    }
    ghost var target := |messages| - minKeep;
    index := |messages| - minKeep;
    while index > 0
      invariant index <= target
      invariant LastSafeCut(messages, index) == LastSafeCut(messages, target)
    {
      if messages[index].role == Tool {
        while index > 0 && messages[index].role == Tool
          invariant index <= target
          invariant LastSafeCut(messages, index) == LastSafeCut(messages, target)
        {
          index := index - 1;
        }
        continue;
      }
      if messages[index - 1].role == Assistant && |messages[index - 1].toolCalls| > 0 {
        index := index - 1;
        continue;
      }
      break;
    }
  }

  /** The estimated tokens of the messages from `start` on. */
  function TailTokens(tokens: ChatMessage -> nat, messages: seq<ChatMessage>, start: nat): nat
    requires start <= |messages|
    decreases |messages| - start
  {
    if start == |messages| then 0 else tokens(messages[start]) + TailTokens(tokens, messages, start + 1)
  }

  lemma {:induction false} TailTokensAddUp(tokens: ChatMessage -> nat, messages: seq<ChatMessage>, start: nat)
    requires start <= |messages|
    ensures TailTokens(tokens, messages, start) == Sum(tokens, messages[start..])
    decreases |messages| - start
  {
    if start < |messages| {
      assert messages[start..][1..] == messages[start + 1..];
      TailTokensAddUp(tokens, messages, start + 1);
    }
  }

  lemma {:induction false} EarlierTailsAreHeavier(
    tokens: ChatMessage -> nat, messages: seq<ChatMessage>, early: nat, late: nat)
    requires early <= late <= |messages|
    ensures TailTokens(tokens, messages, early) >= TailTokens(tokens, messages, late)
    decreases late - early
  {
    if early < late { EarlierTailsAreHeavier(tokens, messages, early + 1, late); }
  }

  method ExpandKeepBoundaryForRecentTokens(
    tokens: ChatMessage -> nat, messages: seq<ChatMessage>, keepIndex: nat, minKeepRecentTokens: int)
    returns (index: nat)
    requires 1 <= keepIndex <= |messages|
    ensures 1 <= index <= keepIndex
    ensures keepIndex < |messages| ==> index == 1 || TailTokens(tokens, messages, index) >= minKeepRecentTokens
    ensures forall k :: index < k <= keepIndex ==> TailTokens(tokens, messages, k) < minKeepRecentTokens
  {
    index := keepIndex;
    if minKeepRecentTokens <= 0 || keepIndex >= |messages| {
      return;
    }
    var keptTokens := 0;
    var position := keepIndex;
    while position < |messages|
      invariant keepIndex <= position <= |messages|
      invariant keptTokens + TailTokens(tokens, messages, position) == TailTokens(tokens, messages, keepIndex)
    {
      keptTokens := keptTokens + tokens(messages[position]);
      position := position + 1;
    }
    while index > 1 && keptTokens < minKeepRecentTokens
      invariant 1 <= index <= keepIndex
      invariant keptTokens == TailTokens(tokens, messages, index)
      invariant forall k :: index < k <= keepIndex ==> TailTokens(tokens, messages, k) < minKeepRecentTokens
    {
      index := index - 1;
      keptTokens := keptTokens + tokens(messages[index]);
    }
  }

  /** A cut behind the system prompt that is safe and keeps enough messages and enough tokens. */
  ghost predicate Acceptable(tokens: ChatMessage -> nat, messages: seq<ChatMessage>, limits: Limits, index: nat) {
    2 <= index < |messages| &&
    SafeCut(messages[1..], index - 1) &&
    |messages| - index >= limits.minKeepMessages &&
    TailTokens(tokens, messages, index) >= limits.minKeepRecentTokens
  }

  /** The chosen cut is the greatest acceptable index, or 1 when none is acceptable. */
  ghost predicate IsGreatestAcceptable(
    tokens: ChatMessage -> nat, messages: seq<ChatMessage>, limits: Limits, index: nat)
  {
    (index == 1 || Acceptable(tokens, messages, limits, index)) &&
    forall k: nat :: Acceptable(tokens, messages, limits, k) ==> k <= index
  }

  method ComputeKeepBoundary(tokens: ChatMessage -> nat, messages: seq<ChatMessage>, limits: Limits)
    returns (index: nat)
    requires |messages| >= 1 && limits.minKeepMessages >= 1
    ensures IsGreatestAcceptable(tokens, messages, limits, index)
    ensures 1 <= index <= |messages|
  {
    var kept := FindKeepBoundary(messages[1..], limits.minKeepMessages);
    var expanded := ExpandKeepBoundaryForRecentTokens(tokens, messages, kept + 1, limits.minKeepRecentTokens);
    var final := FindKeepBoundary(messages[1..], |messages| - expanded);
    index := final + 1;
    forall k: nat | Acceptable(tokens, messages, limits, k) ensures k <= index {
      assert k - 1 <= |messages[1..]| - limits.minKeepMessages;
      assert k - 1 <= kept;
      assert k <= expanded;
    }
    if index > 1 {
      EarlierTailsAreHeavier(tokens, messages, index, expanded);
    }
  }

  // ---------------------------------------------------------------------------------------
  // Histories in the shape a run persists: results directly behind the calls they answer.
  // ---------------------------------------------------------------------------------------

  /** Assistant `call` announces result `result`, with nothing but tool messages between. */
  ghost predicate IsTurnPair(messages: seq<ChatMessage>, call: nat, result: nat) {
    call < result < |messages| &&
    messages[call].role == Assistant && messages[result].role == Tool &&
    messages[result].toolCallId in CallIds(messages[call]) &&
    forall k :: call < k < result ==> messages[k].role == Tool
  }

  /** Every tool message answers one of `open`, the calls of the assistant heading its run. */
  ghost predicate Shaped(messages: seq<ChatMessage>, open: set<string>) {
    messages == [] ||
    match messages[0].role
    case Tool => (messages[0].toolCallId == "" || messages[0].toolCallId in open) && Shaped(messages[1..], open)
    case Assistant => Shaped(messages[1..], CallIds(messages[0]))
    case _ => Shaped(messages[1..], {})
  }

  ghost function OpenAt(messages: seq<ChatMessage>, index: nat): set<string>
    requires index <= |messages|
  {
    if index == 0 then {}
    else match messages[index - 1].role
      case Tool => OpenAt(messages, index - 1)
      case Assistant => CallIds(messages[index - 1])
      case _ => {}
  }

  lemma {:induction false} OpenCallsPair(messages: seq<ChatMessage>, index: nat, result: nat)
    requires index <= result < |messages| && messages[result].role == Tool
    requires forall k :: index <= k < result ==> messages[k].role == Tool
    ensures messages[result].toolCallId in OpenAt(messages, index) <==>
      exists call :: IsTurnPair(messages, call, result)
  {
    if index > 0 && messages[index - 1].role == Tool {
      OpenCallsPair(messages, index - 1, result);
    } else if index > 0 && messages[index - 1].role == Assistant {
      if messages[result].toolCallId in OpenAt(messages, index) {
        assert IsTurnPair(messages, index - 1, result);
      }
    }
  }

  lemma {:induction false} ShapedFrom(messages: seq<ChatMessage>, start: nat)
    requires start <= |messages|
    ensures Shaped(messages[start..], OpenAt(messages, start)) <==>
      forall i :: start <= i < |messages| && messages[i].role == Tool && messages[i].toolCallId != "" ==>
        exists call :: IsTurnPair(messages, call, i)
    decreases |messages| - start
  {
    if start < |messages| {
      assert messages[start..][1..] == messages[start + 1..];
      ShapedFrom(messages, start + 1);
      if messages[start].role == Tool { OpenCallsPair(messages, start, start); }
    }
  }

  /** The shape says exactly that every result sits in the run behind its announcing assistant. */
  lemma {:induction false} ShapedMeansEveryResultPairs(messages: seq<ChatMessage>)
    ensures Shaped(messages, {}) <==>
      forall i :: 0 <= i < |messages| && messages[i].role == Tool && messages[i].toolCallId != "" ==>
        exists call :: IsTurnPair(messages, call, i)
  {
    ShapedFrom(messages, 0);
    assert messages[0..] == messages;
  }

  lemma {:induction false} ShapedSuffix(messages: seq<ChatMessage>, open: set<string>, start: nat)
    requires Shaped(messages, open) && start < |messages| && messages[start].role != Tool
    ensures Shaped(messages[start..], {})
  {
    if start > 0 {
      assert messages[1..][start - 1..] == messages[start..];
      ShapedSuffix(messages[1..],
        if messages[0].role == Tool then open else if messages[0].role == Assistant then CallIds(messages[0]) else {},
        start - 1);
    } else {
      assert messages[0..] == messages;
    }
  }

  lemma {:induction false} ShapedIsPaired(messages: seq<ChatMessage>, open: set<string>, announced: set<string>)
    requires Shaped(messages, open) && open <= announced
    ensures Paired(messages, announced)
  {
    if messages != [] {
      var announced' := announced + CallIds(messages[0]);
      ShapedIsPaired(messages[1..],
        if messages[0].role == Tool then open else if messages[0].role == Assistant then CallIds(messages[0]) else {},
        announced');
    }
  }

  lemma {:induction false} DropKeepsShape(messages: seq<ChatMessage>, open: set<string>, announced: set<string>)
    requires Shaped(messages, open) && OnlyAssistantsCall(messages)
    ensures Shaped(Drop(messages, announced), open * announced)
  {
    if messages != [] {
      assert forall i :: 0 <= i < |messages| - 1 ==> messages[1..][i] == messages[i + 1];
      var announced' := announced + CallIds(messages[0]);
      match messages[0].role {
        case Tool => DropKeepsShape(messages[1..], open, announced');
        case Assistant =>
          DropKeepsShape(messages[1..], CallIds(messages[0]), announced');
          assert CallIds(messages[0]) * announced' == CallIds(messages[0]);
        case _ => DropKeepsShape(messages[1..], {}, announced'); assert {} * announced' == {};
      }
      if Orphan(messages[0], announced') {
        assert Drop(messages, announced) == Drop(messages[1..], announced');
        assert announced' == announced;
      } else {
        assert Drop(messages, announced)[1..] == Drop(messages[1..], announced');
        if messages[0].role == Tool { assert announced' == announced; }
      }
    }
  }

  lemma {:induction false} InsertKeepsShape(messages: seq<ChatMessage>, results: seq<ChatMessage>, open: set<string>)
    requires Shaped(messages, open) && AllTools(results) && ResultIds(results) <= open
    ensures Shaped(InsertBehindToolRun(messages, results), open)
    decreases |messages|, |results|
  {
    if messages != [] && messages[0].role == Tool {
      InsertKeepsShape(messages[1..], results, open);
      assert InsertBehindToolRun(messages, results)[1..] == InsertBehindToolRun(messages[1..], results);
    } else if results != [] {
      assert results[0] in results && results[0].toolCallId in ResultIds(results);
      assert forall i :: 0 <= i < |results| - 1 ==> results[1..][i] == results[i + 1];
      InsertKeepsShape(messages, results[1..], open);
      assert (results + messages)[1..] == results[1..] + messages;
    } else {
      assert results + messages == messages;
    }
  }

  lemma {:induction false} FixKeepsShape(messages: seq<ChatMessage>, open: set<string>)
    requires Shaped(messages, open)
    ensures Shaped(Fix(messages), open)
  {
    if messages != [] {
      var rest := Fix(messages[1..]);
      match messages[0].role {
        case Tool => FixKeepsShape(messages[1..], open); assert Fix(messages)[1..] == rest;
        case Assistant =>
          FixKeepsShape(messages[1..], CallIds(messages[0]));
          var results := Missing(messages[0].toolCalls, Replies(rest) - {""});
          MissingIds(messages[0].toolCalls, Replies(rest) - {""});
          InsertKeepsShape(rest, results, CallIds(messages[0]));
          assert Fix(messages)[1..] == InsertBehindToolRun(rest, results);
        case _ => FixKeepsShape(messages[1..], {}); assert Fix(messages)[1..] == rest;
      }
    }
  }

  /** Repairing a prompt cut out of a shaped history anywhere gives a shaped prompt again. */
  lemma {:induction false} RepairKeepsShape(messages: seq<ChatMessage>, open: set<string>)
    requires Shaped(messages, open) && OnlyAssistantsCall(messages)
    ensures Shaped(Repair(messages), {})
  {
    FixKeepsShape(messages, open);
    FixAddsOnlySynthetic(messages);
    SyntheticLeavesNonTools(messages, Fix(messages));
    DropKeepsShape(Fix(messages), open, {});
    assert open * {} == {};
  }

  /** The chosen cut leaves both halves of every turn pair on the same side. */
  lemma {:induction false} CutSeparatesNoPair(
    tokens: ChatMessage -> nat, messages: seq<ChatMessage>, limits: Limits, index: nat, call: nat, result: nat)
    requires IsGreatestAcceptable(tokens, messages, limits, index)
    requires messages != [] && messages[0].role == System
    requires IsTurnPair(messages, call, result)
    ensures call < index <==> result < index
  {
    if index > 1 {
      assert messages[1..][index - 1] == messages[index];
      assert messages[1..][index - 2] == messages[index - 1];
      assert messages[call].toolCalls != [] by {
        assert messages[result].toolCallId in CallIds(messages[call]);
      }
    }
  }

  /** Where every call is answered in the run behind it and every result sits there, a cut is safe if and only if
      it leaves both halves of every turn pair on the same side. */
  lemma {:induction false} SafeCutIffNoPairSeparated(messages: seq<ChatMessage>, index: nat)
    requires index < |messages|
    requires forall i :: 0 <= i < |messages| && messages[i].role == Tool ==>
      exists call: nat :: IsTurnPair(messages, call, i)
    requires forall i :: 0 <= i < |messages| && messages[i].role == Assistant && messages[i].toolCalls != [] ==>
      exists result: nat :: IsTurnPair(messages, i, result)
    ensures SafeCut(messages, index) <==>
      forall call: nat, result: nat :: IsTurnPair(messages, call, result) ==> (call < index <==> result < index)
  {
    if SafeCut(messages, index) {
      forall call: nat, result: nat | IsTurnPair(messages, call, result) ensures call < index <==> result < index {
        assert messages[result].toolCallId in CallIds(messages[call]);
      }
    } else if messages[index].role == Tool {
      var call: nat :| IsTurnPair(messages, call, index);
      assert call < index && !(index < index);
    }
  }

  /** On a shaped prompt the tail that is kept needs no repair: dropping removes nothing from it. */
  lemma {:induction false} CutOfShapedDropsNothing(
    tokens: ChatMessage -> nat, messages: seq<ChatMessage>, limits: Limits, index: nat)
    requires IsGreatestAcceptable(tokens, messages, limits, index) && index < |messages|
    requires messages[0].role == System && Shaped(messages, {})
    ensures Drop(messages[index..], {}) == messages[index..]
    ensures Shaped(messages[index..], {})
  {
    if index == 1 {
      assert Shaped(messages[1..], {});
    } else {
      assert messages[1..][index - 1] == messages[index];
      ShapedSuffix(messages, {}, index);
    }
    ShapedIsPaired(messages[index..], {}, {});
    PairedMeansDropsNothing(messages[index..], {});
  }
}
