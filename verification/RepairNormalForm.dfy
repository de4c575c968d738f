/** What the two repairs achieve, what they leave alone, and what repairing a second time does. */
module RepairNormalForm {
  import opened Messages
  import opened PromptRepair

  // ---------------------------------------------------------------------------------------
  // Every call is answered before the next assistant or user message.
  // ---------------------------------------------------------------------------------------

  ghost predicate Answered(messages: seq<ChatMessage>) {
    messages == [] ||
    ((messages[0].role == Assistant ==> CallIds(messages[0]) <= Replies(messages[1..])) && Answered(messages[1..]))
  }

  /** A result for `id` follows message `i` with no assistant or user message between. */
  ghost predicate AnsweredInTurn(messages: seq<ChatMessage>, i: nat, id: string) {
    exists j :: i < j < |messages| && IsReply(messages, i, j, id)
  }

  ghost predicate IsReply(messages: seq<ChatMessage>, i: nat, j: nat, id: string)
    requires i < j < |messages|
  {
    messages[j].role == Tool && messages[j].toolCallId == id &&
    forall k :: i < k < j ==> messages[k].role != Assistant && messages[k].role != User
  }

  lemma {:induction false} RepliesAreInTurn(messages: seq<ChatMessage>, i: nat, id: string)
    requires i < |messages|
    ensures id in Replies(messages[i + 1..]) <==> AnsweredInTurn(messages, i, id)
    decreases |messages| - i
  {
    var rest := messages[i + 1..];
    if rest != [] {
      assert rest[1..] == messages[i + 2..];
      RepliesAreInTurn(messages, i + 1, id);
      var next := messages[i + 1];
      if next.role == Tool && next.toolCallId == id {
        assert IsReply(messages, i, i + 1, id);
      } else if next.role != Assistant && next.role != User {
        if AnsweredInTurn(messages, i + 1, id) {
          var j :| i + 1 < j < |messages| && IsReply(messages, i + 1, j, id);
          assert IsReply(messages, i, j, id);
        }
        if AnsweredInTurn(messages, i, id) {
          var j :| i < j < |messages| && IsReply(messages, i, j, id);
          assert IsReply(messages, i + 1, j, id);
        }
      }
    }
  }

  lemma {:induction false} AnsweredMeansInTurn(messages: seq<ChatMessage>)
    ensures Answered(messages) <==>
      (forall i, id :: 0 <= i < |messages| && messages[i].role == Assistant && id in CallIds(messages[i]) ==>
        AnsweredInTurn(messages, i, id))
  {
    AnsweredFrom(messages, 0);
    assert messages[0..] == messages;
  }

  lemma {:induction false} AnsweredFrom(messages: seq<ChatMessage>, start: nat)
    requires start <= |messages|
    ensures Answered(messages[start..]) <==>
      (forall i, id :: start <= i < |messages| && messages[i].role == Assistant && id in CallIds(messages[i]) ==>
        AnsweredInTurn(messages, i, id))
    decreases |messages| - start
  {
    if start < |messages| {
      assert messages[start..][1..] == messages[start + 1..];
      AnsweredFrom(messages, start + 1);
      forall id ensures id in Replies(messages[start + 1..]) <==> AnsweredInTurn(messages, start, id) {
        RepliesAreInTurn(messages, start, id);
      }
    }
  }

  lemma {:induction false} ToolsInFront(results: seq<ChatMessage>, messages: seq<ChatMessage>)
    requires AllTools(results)
    ensures Replies(results + messages) == ResultIds(results) + Replies(messages)
    ensures Answered(messages) ==> Answered(results + messages)
  {
    if results == [] {
      assert results + messages == messages;
    } else {
      assert (results + messages)[1..] == results[1..] + messages;
      ToolsInFront(results[1..], messages);
      assert ResultIds(results) == {results[0].toolCallId} + ResultIds(results[1..]) by {
        assert results == [results[0]] + results[1..];
      }
    }
  }

  lemma {:induction false} InsertAddsReplies(messages: seq<ChatMessage>, results: seq<ChatMessage>)
    requires AllTools(results)
    ensures Replies(InsertBehindToolRun(messages, results)) == Replies(messages) + ResultIds(results)
    ensures Answered(messages) ==> Answered(InsertBehindToolRun(messages, results))
  {
    if messages != [] && messages[0].role == Tool {
      InsertAddsReplies(messages[1..], results);
      assert InsertBehindToolRun(messages, results)[1..] == InsertBehindToolRun(messages[1..], results);
    } else {
      ToolsInFront(results, messages);
    }
  }

  lemma {:induction false} MissingIds(calls: seq<ToolCall>, answered: set<string>)
    ensures ResultIds(Missing(calls, answered)) == (set call | call in calls :: call.id) - answered
  {
    if calls != [] {
      var rest := Missing(calls[1..], answered);
      MissingIds(calls[1..], answered);
      assert (set call | call in calls :: call.id) == {calls[0].id} + (set call | call in calls[1..] :: call.id) by {
        assert calls == [calls[0]] + calls[1..];
      }
      assert ResultIds([Synthetic(calls[0])] + rest) == {calls[0].id} + ResultIds(rest);
      assert [] + rest == rest;
    }
  }

  lemma {:induction false} FixAnswers(messages: seq<ChatMessage>)
    ensures Answered(Fix(messages))
  {
    if messages != [] {
      FixAnswers(messages[1..]);
      var rest := Fix(messages[1..]);
      assert Fix(messages)[0] == messages[0];
      if messages[0].role == Assistant {
        var results := Missing(messages[0].toolCalls, Replies(rest) - {""});
        MissingIds(messages[0].toolCalls, Replies(rest) - {""});
        InsertAddsReplies(rest, results);
        assert Fix(messages)[1..] == InsertBehindToolRun(rest, results);
      } else {
        assert Fix(messages)[1..] == rest;
      }
    }
  }

  lemma {:induction false} DropKeepsReplies(messages: seq<ChatMessage>, announced: set<string>)
    ensures Replies(messages) * (announced + {""}) <= Replies(Drop(messages, announced))
  {
    if messages != [] {
      var announced' := announced + CallIds(messages[0]);
      DropKeepsReplies(messages[1..], announced');
      if !Orphan(messages[0], announced') {
        assert Drop(messages, announced)[1..] == Drop(messages[1..], announced');
      } else {
        assert Drop(messages, announced) == Drop(messages[1..], announced');
      }
    }
  }

  /** Cutting the prompt anywhere and dropping what the cut orphaned leaves every call answered. */
  lemma {:induction false} DropKeepsAnswered(messages: seq<ChatMessage>, announced: set<string>)
    requires Answered(messages)
    ensures Answered(Drop(messages, announced))
  {
    if messages != [] {
      var announced' := announced + CallIds(messages[0]);
      DropKeepsAnswered(messages[1..], announced');
      DropKeepsReplies(messages[1..], announced');
      if !Orphan(messages[0], announced') {
        assert Drop(messages, announced)[1..] == Drop(messages[1..], announced');
      } else {
        assert Drop(messages, announced) == Drop(messages[1..], announced');
      }
    }
  }

  lemma {:induction false} AnsweredSuffix(messages: seq<ChatMessage>, start: nat)
    requires start <= |messages| && Answered(messages)
    ensures Answered(messages[start..])
  {
    if start > 0 {
      AnsweredSuffix(messages[1..], start - 1);
      assert messages[1..][start - 1..] == messages[start..];
    } else {
      assert messages[start..] == messages;
    }
  }

  lemma {:induction false} RepliesIgnoreContent(before: seq<ChatMessage>, after: seq<ChatMessage>)
    requires SameButToolContent(before, after)
    ensures Replies(before) == Replies(after)
    ensures Answered(before) ==> Answered(after)
  {
    if before != [] {
      assert forall i :: 0 <= i < |before| - 1 ==> before[1..][i] == before[i + 1] && after[1..][i] == after[i + 1];
      RepliesIgnoreContent(before[1..], after[1..]);
    }
  }

  // ---------------------------------------------------------------------------------------
  // Every result that is kept was announced earlier.
  // ---------------------------------------------------------------------------------------

  /** Message `i` is a result whose id no message up to it announces. */
  ghost predicate Unpaired(messages: seq<ChatMessage>, i: nat)
    requires i < |messages|
  {
    messages[i].role == Tool && messages[i].toolCallId != "" &&
    forall j :: 0 <= j <= i ==> messages[i].toolCallId !in CallIds(messages[j])
  }

  /** The messages before `end` that are not unpaired, in order. */
  ghost function PairedBefore(messages: seq<ChatMessage>, end: nat): seq<ChatMessage>
    requires end <= |messages|
  {
    if end == 0 then []
    else PairedBefore(messages, end - 1) + (if Unpaired(messages, end - 1) then [] else [messages[end - 1]])
  }

  ghost function AnnouncedBefore(messages: seq<ChatMessage>, end: nat): set<string>
    requires end <= |messages|
  {
    set i, call | 0 <= i < end && call in messages[i].toolCalls :: call.id
  }

  lemma {:induction false} AnnouncedWith(messages: seq<ChatMessage>, start: nat)
    requires start < |messages|
    ensures AnnouncedBefore(messages, start) + CallIds(messages[start]) == AnnouncedBefore(messages, start + 1)
    ensures Orphan(messages[start], AnnouncedBefore(messages, start + 1)) <==> Unpaired(messages, start)
  {
    var announced := AnnouncedBefore(messages, start + 1);
    assert announced == AnnouncedBefore(messages, start) + CallIds(messages[start]);
    assert forall id :: id in announced <==> exists j :: 0 <= j <= start && id in CallIds(messages[j]);
  }

  lemma {:induction false} Regrouped(left: seq<ChatMessage>, middle: seq<ChatMessage>, right: seq<ChatMessage>)
    ensures left + middle + right == left + (middle + right)
  {
  }

  lemma {:induction false} DropFrom(messages: seq<ChatMessage>, start: nat)
    requires start <= |messages|
    ensures PairedBefore(messages, start) + Drop(messages[start..], AnnouncedBefore(messages, start))
         == PairedBefore(messages, |messages|)
    decreases |messages| - start
  {
    if start < |messages| {
      AnnouncedWith(messages, start);
      DropAt(messages, start, AnnouncedBefore(messages, start));
      DropFrom(messages, start + 1);
      Regrouped(PairedBefore(messages, start), if Unpaired(messages, start) then [] else [messages[start]],
        Drop(messages[start + 1..], AnnouncedBefore(messages, start + 1)));
    } else {
      assert messages[start..] == [];
    }
  }

  /** Dropping removes exactly the unpaired results and keeps everything else in order. */
  lemma {:induction false} DropRemovesExactlyUnpaired(messages: seq<ChatMessage>)
    ensures Drop(messages, {}) == PairedBefore(messages, |messages|)
  {
    DropFrom(messages, 0);
    assert AnnouncedBefore(messages, 0) == {} && messages[0..] == messages;
  }

  ghost predicate Paired(messages: seq<ChatMessage>, announced: set<string>) {
    messages == [] ||
    (var announced' := announced + CallIds(messages[0]);
     !Orphan(messages[0], announced') && Paired(messages[1..], announced'))
  }

  lemma {:induction false} PairedMeansDropsNothing(messages: seq<ChatMessage>, announced: set<string>)
    ensures Paired(messages, announced) <==> Drop(messages, announced) == messages
    ensures |Drop(messages, announced)| <= |messages|
  {
    if messages != [] {
      PairedMeansDropsNothing(messages[1..], announced + CallIds(messages[0]));
      assert messages == [messages[0]] + messages[1..];
    }
  }

  lemma {:induction false} DropPairs(messages: seq<ChatMessage>, announced: set<string>)
    requires OnlyAssistantsCall(messages)
    ensures Paired(Drop(messages, announced), announced)
    ensures OnlyAssistantsCall(Drop(messages, announced))
  {
    if messages != [] {
      var announced' := announced + CallIds(messages[0]);
      assert forall i :: 0 <= i < |messages| - 1 ==> messages[1..][i] == messages[i + 1];
      DropPairs(messages[1..], announced');
      if Orphan(messages[0], announced') {
        assert announced' == announced;
        assert Drop(messages, announced) == Drop(messages[1..], announced');
      } else {
        assert Drop(messages, announced)[1..] == Drop(messages[1..], announced');
      }
    }
  }

  // ---------------------------------------------------------------------------------------
  // What the repairs leave alone.
  // ---------------------------------------------------------------------------------------

  function NonTools(messages: seq<ChatMessage>): seq<ChatMessage> {
    if messages == [] then []
    else (if messages[0].role == Tool then [] else [messages[0]]) + NonTools(messages[1..])
  }

  /** `after` is `before` with synthetic results inserted and nothing else changed. */
  ghost predicate AddsOnlySynthetic(before: seq<ChatMessage>, after: seq<ChatMessage>) {
    if after == [] then before == []
    else (before != [] && after[0] == before[0] && AddsOnlySynthetic(before[1..], after[1..])) ||
         (IsSynthetic(after[0]) && AddsOnlySynthetic(before, after[1..]))
  }

  ghost predicate AllSynthetic(messages: seq<ChatMessage>) {
    forall i :: 0 <= i < |messages| ==> IsSynthetic(messages[i])
  }

  lemma {:induction false} MissingIsSynthetic(calls: seq<ToolCall>, answered: set<string>)
    ensures AllSynthetic(Missing(calls, answered))
  {
    if calls != [] { MissingIsSynthetic(calls[1..], answered); }
  }

  lemma {:induction false} SyntheticInFront(
    results: seq<ChatMessage>, before: seq<ChatMessage>, after: seq<ChatMessage>)
    requires AllSynthetic(results) && AddsOnlySynthetic(before, after)
    ensures AddsOnlySynthetic(before, results + after)
  {
    if results == [] {
      assert results + after == after;
    } else {
      assert (results + after)[1..] == results[1..] + after;
      SyntheticInFront(results[1..], before, after);
    }
  }

  lemma {:induction false} InsertAddsOnlySynthetic(
    before: seq<ChatMessage>, after: seq<ChatMessage>, results: seq<ChatMessage>)
    requires AllSynthetic(results) && AddsOnlySynthetic(before, after)
    ensures AddsOnlySynthetic(before, InsertBehindToolRun(after, results))
    decreases |after|
  {
    if after != [] && after[0].role == Tool {
      assert InsertBehindToolRun(after, results)[1..] == InsertBehindToolRun(after[1..], results);
      if before != [] && after[0] == before[0] && AddsOnlySynthetic(before[1..], after[1..]) {
        InsertAddsOnlySynthetic(before[1..], after[1..], results);
      } else {
        InsertAddsOnlySynthetic(before, after[1..], results);
      }
    } else {
      SyntheticInFront(results, before, after);
    }
  }

  lemma {:induction false} FixAddsOnlySynthetic(messages: seq<ChatMessage>)
    ensures AddsOnlySynthetic(messages, Fix(messages))
  {
    if messages != [] {
      FixAddsOnlySynthetic(messages[1..]);
      var rest := Fix(messages[1..]);
      if messages[0].role == Assistant {
        var results := Missing(messages[0].toolCalls, Replies(rest) - {""});
        MissingIsSynthetic(messages[0].toolCalls, Replies(rest) - {""});
        InsertAddsOnlySynthetic(messages[1..], rest, results);
        assert Fix(messages)[1..] == InsertBehindToolRun(rest, results);
      } else {
        assert Fix(messages)[1..] == rest;
      }
    }
  }

  lemma {:induction false} SyntheticLeavesNonTools(before: seq<ChatMessage>, after: seq<ChatMessage>)
    requires AddsOnlySynthetic(before, after)
    ensures NonTools(before) == NonTools(after)
    ensures OnlyAssistantsCall(before) ==> OnlyAssistantsCall(after)
    ensures |before| <= |after|
    decreases |after|
  {
    if after != [] {
      if before != [] && after[0] == before[0] && AddsOnlySynthetic(before[1..], after[1..]) {
        SyntheticLeavesNonTools(before[1..], after[1..]);
        if OnlyAssistantsCall(before) {
          assert forall i :: 0 <= i < |before| - 1 ==> before[1..][i] == before[i + 1];
          assert forall i :: 0 < i < |after| ==> after[i] == after[1..][i - 1];
        }
      } else {
        SyntheticLeavesNonTools(before, after[1..]);
        assert forall i :: 0 < i < |after| ==> after[i] == after[1..][i - 1];
      }
    }
  }

  lemma {:induction false} DropLeavesNonTools(messages: seq<ChatMessage>, announced: set<string>)
    ensures NonTools(Drop(messages, announced)) == NonTools(messages)
  {
    if messages != [] {
      var announced' := announced + CallIds(messages[0]);
      DropLeavesNonTools(messages[1..], announced');
      if Orphan(messages[0], announced') {
        assert Drop(messages, announced) == Drop(messages[1..], announced');
      } else {
        assert Drop(messages, announced)[1..] == Drop(messages[1..], announced');
      }
    }
  }

  /** The repaired prompt: calls answered in their turn, results announced, the rest untouched. */
  lemma {:induction false} RepairIsNormalForm(messages: seq<ChatMessage>)
    requires OnlyAssistantsCall(messages)
    ensures Answered(Repair(messages))
    ensures Paired(Repair(messages), {})
    ensures OnlyAssistantsCall(Repair(messages))
    ensures NonTools(Repair(messages)) == NonTools(messages)
    ensures AddsOnlySynthetic(messages, Fix(messages))
    ensures Repair(messages) == PairedBefore(Fix(messages), |Fix(messages)|)
  {
    FixAnswers(messages);
    DropKeepsAnswered(Fix(messages), {});
    FixAddsOnlySynthetic(messages);
    SyntheticLeavesNonTools(messages, Fix(messages));
    DropPairs(Fix(messages), {});
    DropLeavesNonTools(Fix(messages), {});
    DropRemovesExactlyUnpaired(Fix(messages));
  }

  // ---------------------------------------------------------------------------------------
  // Repairing twice.
  // ---------------------------------------------------------------------------------------

  /** No assistant announces a call without an id, as every provider guarantees. */
  ghost predicate CallsHaveIds(messages: seq<ChatMessage>) {
    forall i :: 0 <= i < |messages| && messages[i].role == Assistant ==> "" !in CallIds(messages[i])
  }

  lemma {:induction false} NothingMissing(calls: seq<ToolCall>, answered: set<string>)
    ensures |Missing(calls, answered)| == 0 <==> (forall call :: call in calls ==> call.id in answered)
  {
    if calls != [] {
      NothingMissing(calls[1..], answered);
      assert calls == [calls[0]] + calls[1..];
    }
  }

  lemma {:induction false} InsertLength(messages: seq<ChatMessage>, results: seq<ChatMessage>)
    ensures |InsertBehindToolRun(messages, results)| == |messages| + |results|
  {
    if messages != [] && messages[0].role == Tool { InsertLength(messages[1..], results); }
  }

  /** On an answered prompt the first repair is the identity exactly when every call has an id. */
  lemma {:induction false} FixOfAnswered(messages: seq<ChatMessage>)
    requires Answered(messages)
    ensures CallsHaveIds(messages) ==> Fix(messages) == messages
    ensures !CallsHaveIds(messages) ==> |Fix(messages)| > |messages|
  {
    if messages != [] {
      FixOfAnswered(messages[1..]);
      FixAddsOnlySynthetic(messages[1..]);
      SyntheticLeavesNonTools(messages[1..], Fix(messages[1..]));
      assert forall i :: 0 <= i < |messages| - 1 ==> messages[1..][i] == messages[i + 1];
      var rest := Fix(messages[1..]);
      if messages[0].role == Assistant {
        var answered := Replies(rest) - {""};
        NothingMissing(messages[0].toolCalls, answered);
        InsertLength(rest, Missing(messages[0].toolCalls, answered));
        if CallsHaveIds(messages) {
          assert CallsHaveIds(messages[1..]);
          assert forall call :: call in messages[0].toolCalls ==> call.id in CallIds(messages[0]);
          InsertNothing(rest);
        } else if CallsHaveIds(messages[1..]) {
          assert "" in CallIds(messages[0]);
        }
      }
      assert messages == [messages[0]] + messages[1..];
    }
  }

  lemma {:induction false} InsertKeepsPaired(
    messages: seq<ChatMessage>, results: seq<ChatMessage>, announced: set<string>)
    requires Paired(messages, announced) && OnlyAssistantsCall(messages)
    requires AllSynthetic(results) && ResultIds(results) <= announced
    ensures Paired(InsertBehindToolRun(messages, results), announced)
    decreases |messages|, |results|
  {
    if messages != [] && messages[0].role == Tool {
      assert forall i :: 0 <= i < |messages| - 1 ==> messages[1..][i] == messages[i + 1];
      InsertKeepsPaired(messages[1..], results, announced + CallIds(messages[0]));
      assert InsertBehindToolRun(messages, results)[1..] == InsertBehindToolRun(messages[1..], results);
    } else if results != [] {
      assert results[0] in results && results[0].toolCallId in ResultIds(results);
      assert CallIds(results[0]) == {} && announced + CallIds(results[0]) == announced;
      assert forall i :: 0 <= i < |results| - 1 ==> results[1..][i] == results[i + 1];
      InsertKeepsPaired(messages, results[1..], announced);
      assert (results + messages)[1..] == results[1..] + messages;
    } else {
      assert results + messages == messages;
    }
  }

  lemma {:induction false} FixKeepsPaired(messages: seq<ChatMessage>, announced: set<string>)
    requires Paired(messages, announced) && OnlyAssistantsCall(messages)
    ensures Paired(Fix(messages), announced)
  {
    if messages != [] {
      assert forall i :: 0 <= i < |messages| - 1 ==> messages[1..][i] == messages[i + 1];
      var announced' := announced + CallIds(messages[0]);
      FixKeepsPaired(messages[1..], announced');
      var rest := Fix(messages[1..]);
      if messages[0].role == Assistant {
        var results := Missing(messages[0].toolCalls, Replies(rest) - {""});
        MissingIds(messages[0].toolCalls, Replies(rest) - {""});
        MissingIsSynthetic(messages[0].toolCalls, Replies(rest) - {""});
        FixAddsOnlySynthetic(messages[1..]);
        SyntheticLeavesNonTools(messages[1..], rest);
        InsertKeepsPaired(rest, results, announced');
        assert Fix(messages)[1..] == InsertBehindToolRun(rest, results);
      } else {
        assert Fix(messages)[1..] == rest;
      }
    }
  }

  lemma {:induction false} NonToolsDecideIds(left: seq<ChatMessage>, right: seq<ChatMessage>)
    requires NonTools(left) == NonTools(right)
    ensures CallsHaveIds(left) ==> CallsHaveIds(right)
  {
    if CallsHaveIds(left) {
      forall i | 0 <= i < |right| && right[i].role == Assistant ensures "" !in CallIds(right[i]) {
        NonToolsMembers(right, right[i]);
        NonToolsMembers(left, right[i]);
      }
    }
  }

  lemma {:induction false} NonToolsMembers(messages: seq<ChatMessage>, message: ChatMessage)
    requires message.role != Tool
    ensures message in messages <==> message in NonTools(messages)
  {
    if messages != [] {
      NonToolsMembers(messages[1..], message);
      assert messages == [messages[0]] + messages[1..];
    }
  }

  /** Repairing again changes nothing if and only if every call has an id. */
  lemma {:induction false} RepairIsIdempotent(messages: seq<ChatMessage>)
    requires OnlyAssistantsCall(messages)
    ensures Repair(Repair(messages)) == Repair(messages) <==> CallsHaveIds(messages)
  {
    var once := Repair(messages);
    RepairIsNormalForm(messages);
    NonToolsDecideIds(messages, once);
    NonToolsDecideIds(once, messages);
    FixOfAnswered(once);
    FixKeepsPaired(once, {});
    PairedMeansDropsNothing(Fix(once), {});
  }
}
