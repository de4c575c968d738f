/** Merging translated messages into turns of alternating roles, as both providers require. */
module TurnMerging {
  import opened Messages

  /** `None` is the content left behind when encoding the blocks failed. */
  datatype Turn<+Block> = Turn(user: bool, content: Option<seq<Block>>)

  function Merge<Block>(existing: Turn<Block>, incoming: Turn<Block>): Turn<Block> {
    if existing.content.None? || incoming.content.None? then existing
    else Turn(existing.user, Some(existing.content.value + incoming.content.value))
  }

  function Push<Block>(turns: seq<Turn<Block>>, next: Turn<Block>): seq<Turn<Block>> {
    if turns != [] && turns[|turns| - 1].user == next.user
    then turns[..|turns| - 1] + [Merge(turns[|turns| - 1], next)]
    else turns + [next]
  }

  function Turns<Block>(translated: seq<Turn<Block>>): seq<Turn<Block>> {
    if translated == [] then []
    else Push(Turns(translated[..|translated| - 1]), translated[|translated| - 1])
  }

  lemma {:induction false} TurnsSnoc<Block>(translated: seq<Turn<Block>>, next: Turn<Block>)
    ensures Turns(translated + [next]) == Push(Turns(translated), next)
  {
    assert (translated + [next])[..|translated|] == translated;
  }

  function Blocks<Block>(turns: seq<Turn<Block>>): seq<Block> {
    if turns == [] then []
    else Blocks(turns[..|turns| - 1]) +
         (if turns[|turns| - 1].content.Some? then turns[|turns| - 1].content.value else [])
  }

  ghost predicate Alternating<Block>(turns: seq<Turn<Block>>) {
    forall t :: 0 < t < |turns| ==> turns[t].user != turns[t - 1].user
  }

  ghost predicate AllEncoded<Block>(turns: seq<Turn<Block>>) {
    forall i :: 0 <= i < |turns| ==> turns[i].content.Some?
  }

  ghost predicate UsersEncoded<Block>(turns: seq<Turn<Block>>) {
    forall i :: 0 <= i < |turns| && turns[i].user ==> turns[i].content.Some?
  }

  /** The turn that translated message `i` belongs to: the number of role changes up to it. */
  ghost function TurnOf<Block>(translated: seq<Turn<Block>>, i: nat): nat
    requires i < |translated|
  {
    if i == 0 then 0
    else TurnOf(translated, i - 1) + (if translated[i].user == translated[i - 1].user then 0 else 1)
  }

  lemma {:induction false} TurnOfPrefix<Block>(translated: seq<Turn<Block>>, length: nat, i: nat)
    requires i < length <= |translated|
    ensures TurnOf(translated[..length], i) == TurnOf(translated, i)
  {
    if i > 0 { TurnOfPrefix(translated, length, i - 1); }
  }

  lemma {:induction false} LastTurn<Block>(translated: seq<Turn<Block>>)
    requires translated != []
    ensures var turns, last := Turns(translated), |translated| - 1;
      |turns| == TurnOf(translated, last) + 1 && turns[|turns| - 1].user == translated[last].user
  {
    var last := |translated| - 1;
    if last > 0 {
      LastTurn(translated[..last]);
      TurnOfPrefix(translated, last, last - 1);
    }
  }

  lemma {:induction false} TurnsAlternate<Block>(translated: seq<Turn<Block>>)
    ensures Alternating(Turns(translated))
  {
    if translated != [] { TurnsAlternate(translated[..|translated| - 1]); }
  }

  lemma {:induction false} UserTurnsAreEncoded<Block>(translated: seq<Turn<Block>>)
    requires UsersEncoded(translated)
    ensures UsersEncoded(Turns(translated))
  {
    if translated != [] {
      UserTurnsAreEncoded(translated[..|translated| - 1]);
    }
  }

  lemma {:induction false} PushKeepsTurn<Block(!new)>(turns: seq<Turn<Block>>, next: Turn<Block>, t: nat, block: Block)
    requires t < |turns| && turns[t].content.Some? && block in turns[t].content.value
    ensures var pushed := Push(turns, next);
      t < |pushed| && pushed[t].user == turns[t].user && pushed[t].content.Some? && block in pushed[t].content.value
  {
  }

  lemma {:induction false} LastBlockArrives<Block(!new)>(translated: seq<Turn<Block>>, block: Block)
    requires translated != []
    requires var last := translated[|translated| - 1]; last.content.Some? && block in last.content.value
    requires UsersEncoded(translated) && (translated[|translated| - 1].user || AllEncoded(translated))
    ensures var turns, t := Turns(translated), TurnOf(translated, |translated| - 1);
      t < |turns| && turns[t].user == translated[|translated| - 1].user &&
      turns[t].content.Some? && block in turns[t].content.value
  {
    var last := |translated| - 1;
    var before := translated[..last];
    LastTurn(translated);
    UserTurnsAreEncoded(before);
    if !translated[last].user { AllTurnsAreEncoded(before); }
  }

  lemma {:induction false} PrefixIsEncoded<Block>(translated: seq<Turn<Block>>, length: nat)
    requires length <= |translated|
    ensures UsersEncoded(translated) ==> UsersEncoded(translated[..length])
    ensures AllEncoded(translated) ==> AllEncoded(translated[..length])
  {
  }

  /** What an encoded message says arrives in its turn, unless the run it is in starts with a failed one. */
  lemma {:induction false} BlocksArrive<Block(!new)>(translated: seq<Turn<Block>>, i: nat, block: Block)
    requires i < |translated| && translated[i].content.Some? && block in translated[i].content.value
    requires UsersEncoded(translated) && (translated[i].user || AllEncoded(translated))
    ensures var turns, t := Turns(translated), TurnOf(translated, i);
      t < |turns| && turns[t].user == translated[i].user &&
      turns[t].content.Some? && block in turns[t].content.value
  {
    var last := |translated| - 1;
    if i < last {
      var before := translated[..last];
      TurnOfPrefix(translated, last, i);
      assert before[i] == translated[i];
      PrefixIsEncoded(translated, last);
      BlocksArrive(before, i, block);
      assert Turns(translated) == Push(Turns(before), translated[last]);
      PushKeepsTurn(Turns(before), translated[last], TurnOf(translated, i), block);
    } else {
      LastBlockArrives(translated, block);
    }
  }

  lemma {:induction false} AllTurnsAreEncoded<Block>(translated: seq<Turn<Block>>)
    requires AllEncoded(translated)
    ensures AllEncoded(Turns(translated))
  {
    if translated != [] { AllTurnsAreEncoded(translated[..|translated| - 1]); }
  }

  ghost predicate Contributes<Block>(translated: seq<Turn<Block>>, i: nat, t: nat, block: Block)
    requires i < |translated|
  {
    TurnOf(translated, i) == t && translated[i].content.Some? && block in translated[i].content.value
  }

  /** Every block of a turn was said by a message of that turn. */
  lemma {:induction false} BlocksComeFrom<Block(!new)>(translated: seq<Turn<Block>>, t: nat, block: Block)
    requires t < |Turns(translated)|
    requires Turns(translated)[t].content.Some? && block in Turns(translated)[t].content.value
    ensures exists i :: 0 <= i < |translated| && Contributes(translated, i, t, block)
    ensures forall i :: 0 <= i < |translated| && TurnOf(translated, i) == t ==>
      translated[i].user == Turns(translated)[t].user
  {
    SaidBySomeone(translated, t, block);
    forall i | 0 <= i < |translated| && TurnOf(translated, i) == t
      ensures translated[i].user == Turns(translated)[t].user
    {
      RoleOfTurn(translated, i);
    }
  }

  lemma {:induction false} RoleOfTurn<Block>(translated: seq<Turn<Block>>, i: nat)
    requires i < |translated|
    ensures var turns, t := Turns(translated), TurnOf(translated, i);
      t < |turns| && turns[t].user == translated[i].user
    decreases |translated|
  {
    var last := |translated| - 1;
    LastTurn(translated);
    if i < last {
      TurnOfPrefix(translated, last, i);
      RoleOfTurn(translated[..last], i);
    }
  }

  lemma {:induction false} SaidBySomeone<Block(!new)>(translated: seq<Turn<Block>>, t: nat, block: Block)
    requires t < |Turns(translated)|
    requires Turns(translated)[t].content.Some? && block in Turns(translated)[t].content.value
    ensures exists i :: 0 <= i < |translated| && Contributes(translated, i, t, block)
  {
    var last := |translated| - 1;
    var before := translated[..last];
    LastTurn(translated);
    if last > 0 { LastTurn(before); TurnOfPrefix(translated, last, last - 1); }
    if t < |Turns(before)| && Turns(before)[t].content.Some? && block in Turns(before)[t].content.value {
      SaidBySomeone(before, t, block);
      var i :| 0 <= i < |before| && Contributes(before, i, t, block);
      TurnOfPrefix(translated, last, i);
      assert Contributes(translated, i, t, block);
    } else {
      assert Contributes(translated, last, t, block);
    }
  }

  /** A message of the other role, followed only by user messages, is answered one turn later. */
  lemma {:induction false} NextTurn<Block>(translated: seq<Turn<Block>>, i: nat, j: nat)
    requires i < j < |translated| && !translated[i].user
    requires forall k :: i < k <= j ==> translated[k].user
    ensures TurnOf(translated, j) == TurnOf(translated, i) + 1
  {
    if i + 1 < j { NextTurn(translated, i, j - 1); }
  }

  lemma {:induction false} PushKeepsBlocks<Block>(turns: seq<Turn<Block>>, next: Turn<Block>)
    ensures AllEncoded(turns) && next.content.Some? ==> Blocks(Push(turns, next)) == Blocks(turns) + next.content.value
    ensures |Blocks(Push(turns, next))| <= |Blocks(turns)| + (if next.content.Some? then |next.content.value| else 0)
  {
    if turns != [] && turns[|turns| - 1].user == next.user {
      assert Push(turns, next)[..|turns| - 1] == turns[..|turns| - 1];
    } else {
      assert Push(turns, next)[..|turns|] == turns;
    }
  }

  /** When every message encodes, merging keeps all blocks in order; it never adds one. */
  lemma {:induction false} MergingKeepsBlocks<Block>(translated: seq<Turn<Block>>)
    ensures AllEncoded(translated) ==> Blocks(Turns(translated)) == Blocks(translated)
    ensures |Blocks(Turns(translated))| <= |Blocks(translated)|
  {
    if translated != [] {
      var before, next := translated[..|translated| - 1], translated[|translated| - 1];
      MergingKeepsBlocks(before);
      PushKeepsBlocks(Turns(before), next);
      if AllEncoded(translated) { AllTurnsAreEncoded(before); }
    }
  }

  // ---------------------------------------------------------------------------------------
  // What a turn holds.
  // ---------------------------------------------------------------------------------------

  function ContentOf<Block>(message: Turn<Block>): seq<Block> {
    if message.content.Some? then message.content.value else []
  }

  /** What the messages before `end` that belong to turn `t` say, in their order. */
  ghost function SaidIn<Block>(translated: seq<Turn<Block>>, t: nat, end: nat): seq<Block>
    requires end <= |translated|
  {
    if end == 0 then []
    else if TurnOf(translated, end - 1) != t then SaidIn(translated, t, end - 1)
    else SaidIn(translated, t, end - 1) + ContentOf(translated[end - 1])
  }

  lemma {:induction false} SaidInPrefix<Block>(translated: seq<Turn<Block>>, length: nat, t: nat, end: nat)
    requires end <= length <= |translated|
    ensures SaidIn(translated[..length], t, end) == SaidIn(translated, t, end)
  {
    if end > 0 {
      SaidInPrefix(translated, length, t, end - 1);
      TurnOfPrefix(translated, length, end - 1);
    }
  }

  lemma {:induction false} TurnsGrow<Block>(translated: seq<Turn<Block>>, i: nat, j: nat)
    requires i <= j < |translated|
    ensures TurnOf(translated, i) <= TurnOf(translated, j)
  {
    if i < j { TurnsGrow(translated, i, j - 1); }
  }

  lemma {:induction false} NothingSaidBefore<Block>(translated: seq<Turn<Block>>, t: nat, end: nat)
    requires end <= |translated| && forall i :: 0 <= i < end ==> TurnOf(translated, i) < t
    ensures SaidIn(translated, t, end) == []
  {
    if end > 0 { NothingSaidBefore(translated, t, end - 1); }
  }

  /** A turn holds exactly what its messages say, in their order, if they all encode. */
  lemma {:induction false} TurnHoldsItsMessages<Block>(translated: seq<Turn<Block>>, t: nat)
    requires t < |Turns(translated)| && UsersEncoded(translated)
    requires Turns(translated)[t].user || AllEncoded(translated)
    ensures Turns(translated)[t].content == Some(SaidIn(translated, t, |translated|))
  {
    var last := |translated| - 1;
    var before, next := translated[..last], translated[last];
    LastTurn(translated);
    SaidInPrefix(translated, last, t, last);
    PrefixIsEncoded(translated, last);
    if t < |Turns(before)| {
      LastTurn(before);
      TurnHoldsItsMessages(before, t);
      TurnOfPrefix(translated, last, last - 1);
      assert SaidIn(before, t, |before|) == SaidIn(translated, t, last);
      if t == |Turns(translated)| - 1 {
        assert next.user == Turns(before)[t].user && TurnOf(translated, last) == t;
        assert next.content == Some(ContentOf(next));
        assert Turns(translated)[t] == Merge(Turns(before)[t], next);
        assert Turns(translated)[t].content == Some(SaidIn(translated, t, last) + ContentOf(next));
      } else {
        assert Turns(translated)[t] == Turns(before)[t] && TurnOf(translated, last) != t;
        assert Turns(translated)[t].content == Some(SaidIn(translated, t, last));
        assert SaidIn(translated, t, last + 1) == SaidIn(translated, t, last);
      }
    } else {
      forall i | 0 <= i < last ensures TurnOf(translated, i) < t {
        LastTurn(before);
        TurnsGrow(before, i, last - 1);
        TurnOfPrefix(translated, last, i);
      }
      NothingSaidBefore(translated, t, last);
      assert Turns(translated)[t] == next && [] + ContentOf(next) == ContentOf(next);
      assert next.content == Some(ContentOf(next));
    }
  }

  /** The blocks stand together somewhere in the list. */
  ghost predicate Within<Block>(blocks: seq<Block>, all: seq<Block>) {
    exists at: nat :: StandsAt(blocks, all, at)
  }

  ghost predicate StandsAt<Block>(blocks: seq<Block>, all: seq<Block>, at: nat) {
    at + |blocks| <= |all| && all[at..at + |blocks|] == blocks
  }

  lemma {:induction false} SaidTogether<Block>(translated: seq<Turn<Block>>, i: nat, end: nat)
    requires i < end <= |translated| && translated[i].content.Some?
    ensures Within(translated[i].content.value, SaidIn(translated, TurnOf(translated, i), end))
  {
    var t, blocks := TurnOf(translated, i), translated[i].content.value;
    var all, before := SaidIn(translated, t, end), SaidIn(translated, t, end - 1);
    if i == end - 1 {
      assert StandsAt(blocks, all, |before|);
    } else {
      SaidTogether(translated, i, end - 1);
      var at: nat :| StandsAt(blocks, before, at);
      assert StandsAt(blocks, all, at);
    }
  }

  /** What an encoded message says stands together in its turn, unless the run it is in has a failed one. */
  lemma {:induction false} MessageStaysTogether<Block>(translated: seq<Turn<Block>>, i: nat)
    requires i < |translated| && translated[i].content.Some?
    requires UsersEncoded(translated) && (translated[i].user || AllEncoded(translated))
    ensures var turns, t := Turns(translated), TurnOf(translated, i);
      t < |turns| && turns[t].user == translated[i].user && turns[t].content.Some? &&
      Within(translated[i].content.value, turns[t].content.value)
  {
    RoleOfTurn(translated, i);
    TurnHoldsItsMessages(translated, TurnOf(translated, i));
    SaidTogether(translated, i, |translated|);
  }
}
