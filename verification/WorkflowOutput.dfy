/** What the steps of a workflow hand on: the latest output, an action's answer, and what a body sees. */
module WorkflowOutput {
  import opened Messages
  import opened Decimal
  import opened Workflow

  // ---------------------------------------------------------------------------------------
  // The shared key `last`.
  // ---------------------------------------------------------------------------------------

  /** The last output that any of the entries reports, or Nil. */
  function LatestOutput(entries: seq<StepResult>): Value {
    if entries == [] then Nil
    else if entries[|entries| - 1].output != Nil then entries[|entries| - 1].output
    else LatestOutput(entries[..|entries| - 1])
  }

  /** The key holds the last output logged since, and what it held before when there is none. */
  ghost predicate LastFollowsLog(before: State, after: State) {
    before.log <= after.log &&
    var latest := LatestOutput(after.log[|before.log|..]);
    if latest == Nil then SameAt(before.context, after.context, "last")
    else "last" in after.context && after.context["last"] == latest
  }

  lemma {:induction false} LatestOfConcat(left: seq<StepResult>, right: seq<StepResult>)
    ensures LatestOutput(left + right) == if LatestOutput(right) != Nil then LatestOutput(right) else LatestOutput(left)
    decreases |right|
  {
    var all := left + right;
    if right == [] {
      assert all == left;
    } else {
      assert all[|all| - 1] == right[|right| - 1] && all[..|all| - 1] == left + right[..|right| - 1];
      LatestOfConcat(left, right[..|right| - 1]);
    }
  }

  lemma {:induction false} FollowsTwice(before: State, middle: State, after: State)
    requires LastFollowsLog(before, middle) && LastFollowsLog(middle, after)
    ensures LastFollowsLog(before, after)
  {
    var n, m := |before.log|, |middle.log|;
    assert after.log[n..] == middle.log[n..] + after.log[m..];
    LatestOfConcat(middle.log[n..], after.log[m..]);
  }

  lemma {:induction false} FollowsEntry(before: State, after: State, entry: StepResult)
    requires after.log == before.log + [entry]
    requires if entry.output == Nil then SameAt(before.context, after.context, "last")
             else "last" in after.context && after.context["last"] == entry.output
    ensures LastFollowsLog(before, after)
  {
    assert after.log[|before.log|..] == [entry];
    assert LatestOutput([]) == Nil && [entry][..0] == [];
    assert LatestOutput([entry]) == entry.output;
  }

  lemma {:induction false} FollowsQuietly(before: State, after: State)
    requires after.log == before.log && SameAt(before.context, after.context, "last")
    ensures LastFollowsLog(before, after)
  {
    assert after.log[|before.log|..] == [];
  }

  /** After any list of steps, nested to any depth, failing or not, the key `last` holds the last output logged,
      unless some loop shows its items under that very key. */
  lemma {:induction false} LastIsLatestLogged(
    world: World, steps: seq<Step>, index: nat, last: Value, prefix: string, st: State)
    requires index <= |steps| && !AnyLoopUnder(steps, "last")
    ensures LastFollowsLog(st, RunSteps(world, steps, index, last, prefix, st).state)
    decreases steps, 0, |steps| - index
  {
    if index < |steps| {
      var one := RunStep(world, steps[index], index, prefix, st);
      StepFollows(world, steps[index], index, prefix, st);
      if one.outcome.Finished? {
        var last' := if one.outcome.value == Nil then last else one.outcome.value;
        LastIsLatestLogged(world, steps, index + 1, last', prefix, Noted(one));
        FollowsTwice(st, Noted(one), RunSteps(world, steps, index, last, prefix, st).state);
      }
    } else {
      FollowsQuietly(st, st);
    }
  }

  /** The state in which the list goes on behind a step, or in which it fails. */
  ghost predicate StepLeavesLast(st: State, one: Ran) {
    if one.outcome.Finished? then LastFollowsLog(st, Noted(one)) else LastFollowsLog(st, one.state)
  }

  lemma {:induction false} StepFollows(world: World, step: Step, index: nat, prefix: string, st: State)
    requires !LoopUnder(step, "last")
    ensures StepLeavesLast(st, RunStep(world, step, index, prefix, st))
    decreases step, 2, 0
  {
    var name := FullName(step, index, prefix);
    if step.condition != "" && !world.holds(step.condition, st.context, st.tables) {
      FollowsEntry(st, RunStep(world, step, index, prefix, st).state, StepResult(name, step.kind, Skipped, 0, Nil, ""));
    } else {
      match step.kind {
        case ForEach => ForEachFollows(world, step, name, st);
        case Switch => SwitchFollows(world, step, name, st);
        case Shell => ActionFollows(world, step, name, st);
        case Http => ActionFollows(world, step, name, st);
        case Unknown(_) => FollowsQuietly(st, st);
      }
    }
  }

  lemma {:induction false} RecordLeavesLast(st: State, step: Step, name: string, output: Value)
    ensures Record(st, step, name, output).log == st.log
    ensures SameAt(st.context, Record(st, step, name, output).context, "last")
  {
  }

  lemma {:induction false} ActionFollows(world: World, step: Step, name: string, st: State)
    ensures StepLeavesLast(st, RunAction(world, step, name, st))
  {
    var tries := Attempts(world, step, 1, st.context, st.tables, st.calls);
    var called, one := st.(calls := tries.calls), RunAction(world, step, name, st);
    if one.outcome.Failed? {
      FollowsQuietly(st, one.state);
    } else if tries.reply.Broken? {
      RecordLeavesLast(WithError(called, tries.reply.error), step, name, ErrorTable(called));
      FollowsEntry(st, one.state, StepResult(name, step.kind, Errored, tries.attempts, Nil, tries.reply.error));
    } else {
      var decoded := world.decode(step, name, tries.reply.raw, |st.tables|);
      RecordLeavesLast(called.(tables := called.tables + decoded.tables), step, name, decoded.outcome.value);
      FollowsEntry(st, Noted(one),
        StepResult(name, step.kind, Succeeded, tries.attempts, decoded.outcome.value, ""));
    }
  }

  /** The state in which a switch leaves its body. */
  lemma {:induction false} SwitchFollows(world: World, step: Step, name: string, st: State)
    requires step.kind == Switch && !LoopUnder(step, "last")
    ensures StepLeavesLast(st, RunSwitch(world, step, name, st))
    decreases step, 1, 0
  {
    var first := FirstMatch(step.cases, world.render(step.switchOn, st.context, st.tables));
    var body: Ran;
    if first < |step.cases| && step.cases[first].body.Present? {
      LastIsLatestLogged(world, step.cases[first].body.steps, 0, Nil, name + ".", st);
      body := RunSteps(world, step.cases[first].body.steps, 0, Nil, name + ".", st);
    } else {
      LastIsLatestLogged(world, step.fallback, 0, Nil, name + ".", st);
      body := RunSteps(world, step.fallback, 0, Nil, name + ".", st);
    }
    var one := RunSwitch(world, step, name, st);
    if one.outcome.Finished? {
      if body.outcome.Finished? {
        RecordLeavesLast(body.state, step, name, body.outcome.value);
      } else {
        RecordLeavesLast(WithError(body.state, body.outcome.error), step, name, ErrorTable(body.state));
      }
      FollowsEntry(body.state, Noted(one), one.state.log[|one.state.log| - 1]);
      FollowsTwice(st, body.state, Noted(one));
    }
  }

  lemma {:induction false} ForEachFollows(world: World, step: Step, name: string, st: State)
    requires step.kind == ForEach && !LoopUnder(step, "last")
    ensures StepLeavesLast(st, RunForEach(world, step, name, st))
    decreases step, 1, 0
  {
    var lookup, one := world.find(step.source, st.context, st.tables), RunForEach(world, step, name, st);
    if lookup.Items? {
      var loop := RunItems(world, step, lookup.items, 0, [], name, st);
      ItemsFollow(world, step, lookup.items, 0, [], name, st);
      IndexKeyIsNotLast(step);
      assert SameAt(loop.state.context, one.state.context, "last");
      FollowsQuietly(loop.state, one.state);
      if one.outcome.Finished? {
        LoopNotes(st, one);
      } else {
        FollowsTwice(st, loop.state, one.state);
      }
    } else {
      FollowsQuietly(st, st);
    }
  }

  lemma {:induction false} IndexKeyIsNotLast(step: Step)
    ensures IndexKey(step) != "last"
  {
    assert IndexKey(step)[|IndexKey(step)| - 1] == 'x';
  }

  lemma {:induction false} LoopNotes(st: State, one: Ran)
    requires one.outcome.Finished? && one.outcome.value != Nil && st.log <= one.state.log
    requires |one.state.log| > |st.log| && one.state.log[|one.state.log| - 1].output == one.outcome.value
    ensures LastFollowsLog(st, Noted(one))
  {
    var added := one.state.log[|st.log|..];
    assert added[|added| - 1] == one.state.log[|one.state.log| - 1];
  }

  /** A loop that fails leaves the key as its bodies did; one that finishes has logged the list it collected. */
  ghost predicate LoopLeavesLast(st: State, loop: Ran) {
    if loop.outcome.Failed? then LastFollowsLog(st, loop.state)
    else loop.outcome.value != Nil && st.log < loop.state.log &&
         loop.state.log[|loop.state.log| - 1].output == loop.outcome.value
  }

  lemma {:induction false} ItemsFollow(
    world: World, step: Step, items: seq<Value>, index: nat, collected: seq<Value>, name: string, st: State)
    requires index <= |items| && Alias(step) != "last" && !AnyLoopUnder(step.steps, "last")
    ensures LoopLeavesLast(st, RunItems(world, step, items, index, collected, name, st))
    decreases step, 0, |items| - index
  {
    if index < |items| {
      var body := RunBody(world, step, items[index], index, name, st);
      BodyFollows(world, step, items[index], index, name, st);
      if body.outcome.Finished? || step.continueOnError {
        var next := Collected(body);
        FollowsQuietly(body.state, next);
        FollowsTwice(st, body.state, next);
        ItemsFollow(world, step, items, index + 1, collected + [Entry(body)], name, next);
        var loop := RunItems(world, step, items, index, collected, name, st);
        if loop.outcome.Failed? { FollowsTwice(st, next, loop.state); }
      }
    } else {
      RecordLeavesLast(st, step, name, List(collected));
    }
  }

  lemma {:induction false} BodyFollows(world: World, step: Step, item: Value, index: nat, name: string, st: State)
    requires Alias(step) != "last" && !AnyLoopUnder(step.steps, "last")
    ensures LastFollowsLog(st, RunBody(world, step, item, index, name, st).state)
    decreases step, 0, 0
  {
    var inner := Put(st, step, item, index);
    IndexKeyIsNotLast(step);
    FollowsQuietly(st, inner);
    LastIsLatestLogged(world, step.steps, 0, Nil, BodyPrefix(name, index), inner);
    FollowsTwice(st, inner, RunBody(world, step, item, index, name, st).state);
  }

  /** Behind a finished list with an output, `last` holds that output exactly when nothing logged since its own
      entry reports another; so whenever its last step has an output. */
  lemma {:induction false} LastIsOutcomeIff(world: World, steps: seq<Step>, prefix: string, st: State)
    requires !AnyLoopUnder(steps, "last") && RunSteps(world, steps, 0, Nil, prefix, st).outcome.Finished?
    requires RunSteps(world, steps, 0, Nil, prefix, st).outcome.value != Nil
    ensures var ran := RunSteps(world, steps, 0, Nil, prefix, st); var log := ran.state.log;
      "last" in ran.state.context && |st.log| < |log| &&
      (ran.state.context["last"] == ran.outcome.value <==> LatestOutput(log[|st.log|..]) == ran.outcome.value) &&
      (log[|log| - 1].output != Nil ==> ran.state.context["last"] == ran.outcome.value)
  {
    var ran := RunSteps(world, steps, 0, Nil, prefix, st);
    var log := ran.state.log;
    var at := FinishedStepsAreLogged(world, steps, 0, Nil, prefix, st);
    LastIsLatestLogged(world, steps, 0, Nil, prefix, st);
    OutputIsAdded(log, |st.log|, steps, prefix, at, ran.outcome.value);
  }

  lemma {:induction false} OutputIsAdded(
    log: seq<StepResult>, start: nat, steps: seq<Step>, prefix: string, at: seq<nat>, value: Value)
    requires OwnEntries(log, at, start, steps, 0, prefix) && IsLatest(log, at, Nil, value) && value != Nil
    ensures start < |log| && LatestOutput(log[start..]) != Nil
    ensures log[|log| - 1].output != Nil ==> LatestOutput(log[start..]) == value == log[|log| - 1].output
  {
    var i :| 0 <= i < |at| && value == log[at[i]].output && NoneBehind(log, at, i);
    var added := log[start..];
    assert added[at[i] - start] == log[at[i]];
    SomeOutput(added, at[i] - start);
    assert added[|added| - 1] == log[|log| - 1];
    if i < |at| - 1 { assert log[at[|at| - 1]].output == Nil; }
  }

  lemma {:induction false} SomeOutput(entries: seq<StepResult>, i: nat)
    requires i < |entries| && entries[i].output != Nil
    ensures LatestOutput(entries) != Nil
    decreases |entries|
  {
    if i < |entries| - 1 { SomeOutput(entries[..|entries| - 1], i); }
  }

  function Plain(name: string, kind: StepType): Step {
    Step(name, kind, "", "", 0, false, "", "", "", [], "", [], [])
  }

  const TOLERANT :=
    Plain("s", Switch).(continueOnError := true, fallback := [Plain("b", Shell), Plain("c", Unknown("?"))])

  /** It can hold another one: a switch whose failure is tolerated has no output, but what its body put out
      before it failed is still under `last`. */
  lemma {:induction false} ToleratedSwitchLeavesItsOutput(world: World, st: State)
    requires forall n, step, context, tables :: world.attempt(n, step, context, tables) == Output("y")
    requires forall step, name, raw, n :: world.decode(step, name, raw, n) == Decoded(Finished(Value.Text("y")), [])
    ensures var ran := RunSteps(world, [TOLERANT], 0, Nil, "", st);
      ran.outcome == Finished(Nil) && "last" in ran.state.context && ran.state.context["last"] == Value.Text("y")
  {
    var b, c := Plain("b", Shell), Plain("c", Unknown("?"));
    var body := [b, c];
    var first := RunStep(world, b, 0, "s.", st);
    assert first.outcome == Finished(Value.Text("y"));
    var noted := Noted(first);
    assert RunStep(world, c, 1, "s.", noted).outcome.Failed?;
    assert RunSteps(world, body, 1, Value.Text("y"), "s.", noted).outcome.Failed?;
    assert RunSteps(world, body, 0, Nil, "s.", st).outcome.Failed?;
    assert RunSteps(world, body, 0, Nil, "s.", st).state == noted;
    assert "s" + "." == "s.";
    var one := RunSwitch(world, TOLERANT, "s", st);
    assert one.outcome == Finished(Nil) && one.state.context["last"] == Value.Text("y");
    assert FullName(TOLERANT, 0, "") == "s";
    assert RunSteps(world, [TOLERANT], 1, Nil, "", one.state) == Ran(Finished(Nil), one.state);
  }

  // ---------------------------------------------------------------------------------------
  // Actions, cases and bodies.
  // ---------------------------------------------------------------------------------------

  /** `n` attempts are made: all but the last fail, and the last does not or is the last allowed. */
  ghost predicate MakesAttempts(world: World, step: Step, st: State, n: nat) {
    1 <= n <= (if step.retries < 0 then 1 else step.retries + 1) &&
    (forall i: nat :: st.calls <= i < st.calls + n - 1 ==> world.attempt(i, step, st.context, st.tables).Broken?) &&
    (world.attempt(st.calls + n - 1, step, st.context, st.tables).Broken? ==>
      n == if step.retries < 0 then 1 else step.retries + 1)
  }

  /** An action ends as its last attempt does. A tolerated failure is logged as an error, with one attempt too
      many counted, and an output as it was decoded. */
  lemma {:induction false} ActionEndsLikeItsLastAttempt(world: World, step: Step, name: string, st: State)
    returns (n: nat)
    ensures MakesAttempts(world, step, st, n)
    ensures var ran := RunAction(world, step, name, st);
      var reply := world.attempt(st.calls + n - 1, step, st.context, st.tables);
      ran.state.calls == st.calls + n &&
      (reply.Refused? ==> ran.outcome == Failed(reply.error) && ran.state.log == st.log) &&
      (reply.Broken? && !step.continueOnError ==>
        ran.state.log == st.log &&
        ran.outcome == Failed("skills: workflow step " + name + " failed: " + reply.error)) &&
      (reply.Broken? && step.continueOnError ==>
        ran.outcome == Finished(Nil) &&
        ran.state.log == st.log + [StepResult(name, step.kind, Errored, n + 1, Nil, reply.error)] &&
        "lastError" in ran.state.context && ran.state.context["lastError"] == Value.Text(reply.error)) &&
      (reply.Output? ==>
        ran.outcome == world.decode(step, name, reply.raw, |st.tables|).outcome &&
        (ran.outcome.Finished? ==>
          ran.state.log == st.log + [StepResult(name, step.kind, Succeeded, n, ran.outcome.value, "")]))
  {
    var tries := Attempts(world, step, 1, st.context, st.tables, st.calls);
    AttemptsAreBounded(world, step, 1, st.context, st.tables, st.calls);
    n := tries.calls - st.calls;
  }

  /** A switch goes on with the steps of the first case that matches, and with the fallback when that case has
      none or no case matches; its output is theirs, and their failure its own unless it is tolerated. */
  lemma {:induction false} SwitchRunsFirstMatch(world: World, step: Step, name: string, st: State, steps: seq<Step>)
    requires var text := world.render(step.switchOn, st.context, st.tables);
      (exists i :: 0 <= i < |step.cases| && step.cases[i] == Case(text, Present(steps)) &&
        forall j :: 0 <= j < i ==> step.cases[j].pattern != text) ||
      (steps == step.fallback && forall i :: 0 <= i < |step.cases| && step.cases[i].pattern == text ==>
        step.cases[i].body.Absent? || exists j :: 0 <= j < i && step.cases[j].pattern == text)
    ensures var body, ran := RunSteps(world, steps, 0, Nil, name + ".", st), RunSwitch(world, step, name, st);
      (body.outcome.Finished? ==> ran.outcome == body.outcome) &&
      (body.outcome.Failed? ==> ran.outcome == if step.continueOnError then Finished(Nil) else body.outcome)
  {
  }

  /** A body starts with its item under the alias, the index of the item beside it, and nothing else changed. */
  lemma {:induction false} ItemIsShown(st: State, step: Step, item: Value, index: nat)
    ensures var alias := if step.alias != "" then step.alias else "item"; var shown := Put(st, step, item, index);
      alias in shown.context && shown.context[alias] == item &&
      alias + "Index" in shown.context && shown.context[alias + "Index"] == Number(index) &&
      shown.tables == st.tables && shown.log == st.log && shown.calls == st.calls &&
      forall key: string :: key != alias && key != alias + "Index" ==> SameAt(st.context, shown.context, key)
  {
    var alias := if step.alias != "" then step.alias else "item";
    assert |alias + "Index"| == |alias| + 5;
  }

  /** What the body of item `index` logs stands under the name of the loop with that index. */
  lemma {:induction false} BodyEntriesAreNamed(
    world: World, step: Step, item: Value, index: nat, name: string, st: State, k: nat)
    requires |st.log| <= k < |RunBody(world, step, item, index, name, st).state.log|
    ensures name + "[" + Digits(index) + "]." <= RunBody(world, step, item, index, name, st).state.log[k].name
  {
    StepsAreTidy(world, step.steps, 0, Nil, BodyPrefix(name, index), Put(st, step, item, index));
  }

  /** A step whose condition does not hold is logged as skipped and does nothing else; one of an unknown type, or a
      loop over what is not there or is no list, fails and does nothing at all. */
  lemma {:induction false} StepsThatDoNotRun(world: World, step: Step, index: nat, prefix: string, st: State)
    ensures var ran := RunStep(world, step, index, prefix, st);
      var runs := step.condition == "" || world.holds(step.condition, st.context, st.tables);
      (!runs ==> ran.outcome == Finished(Nil) && ran.state == st.(log := ran.state.log) && exists name ::
        IsNamed(name, step, index, prefix) &&
        ran.state.log == st.log + [StepResult(name, step.kind, Skipped, 0, Nil, "")]) &&
      (runs && step.kind.Unknown? ==> ran.outcome.Failed? && ran.state == st) &&
      (runs && step.kind.ForEach? && !world.find(step.source, st.context, st.tables).Items? ==>
        ran.outcome.Failed? && ran.state == st)
  {
    FullNameIsName(step, index, prefix);
  }

  /** A loop collects the output of a body that finishes, and a new table with the error of one that fails. */
  lemma {:induction false} EntryIsOutputOrError(body: Ran)
    ensures body.outcome.Finished? ==> Entry(body) == body.outcome.value && Collected(body) == body.state
    ensures body.outcome.Failed? ==>
      Entry(body) == Table(|body.state.tables|) &&
      Collected(body) == body.state.(tables := body.state.tables + [map["error" := Value.Text(body.outcome.error)]])
  {
  }
}
