/** The skill workflow interpreter: nested steps over one shared context. */
module Workflow {
  import opened Messages
  import opened Decimal

  /** Template values; `Nil` is the absent output. A table is a reference: whoever holds it sees what is
      written into it. */
  datatype Value = Nil | Text(text: string) | Number(number: int) | List(items: seq<Value>) | Table(ref: nat)

  type Context = map<string, Value>

  /** What is in the tables, by reference; new ones are added behind the others. */
  type Tables = seq<map<string, Value>>

  datatype StepType = Shell | Http | ForEach | Switch | Unknown(text: string)

  /** A case without steps is told apart from one with an empty list of steps. */
  datatype Body = Absent | Present(steps: seq<Step>)

  datatype Case = Case(pattern: string, body: Body)

  datatype Step = Step(
    name: string, kind: StepType, condition: string, command: string, retries: int, continueOnError: bool,
    saveAs: string, source: string, alias: string, steps: seq<Step>, switchOn: string, cases: seq<Case>,
    fallback: seq<Step>)

  datatype Status = Succeeded | Errored | Skipped

  datatype StepResult =
    StepResult(name: string, kind: StepType, status: Status, attempts: nat, output: Value, error: string)

  datatype Outcome = Finished(value: Value) | Failed(error: string)

  datatype Lookup = NotFound | NotArray | Items(items: seq<Value>)

  datatype Reply = Output(raw: string) | Refused(error: string) | Broken(error: string)

  /** A decoded output, with the tables it brings along. */
  datatype Decoded = Decoded(outcome: Outcome, tables: Tables)

  /** What the interpreter asks of the outside: conditions, templates and, numbered by the calls made
      so far, the attempts of shell and HTTP actions. `Refused` is a missing permission. Decoding is
      told how many tables there are. */
  datatype World = World(
    holds: (string, Context, Tables) -> bool,
    find: (string, Context, Tables) -> Lookup,
    render: (string, Context, Tables) -> string,
    attempt: (nat, Step, Context, Tables) -> Reply,
    decode: (Step, string, string, nat) -> Decoded)

  /** `lent` holds the tables that loops have put in the place of the table of step outputs. */
  datatype State = State(context: Context, tables: Tables, lent: set<nat>, log: seq<StepResult>, calls: nat)

  datatype Ran = Ran(outcome: Outcome, state: State)

  function FullName(step: Step, index: nat, prefix: string): string {
    prefix + (if step.name == "" then "step" + Digits(index + 1) else step.name)
  }

  function Alias(step: Step): string {
    if step.alias == "" then "item" else step.alias
  }

  function IndexKey(step: Step): string {
    Alias(step) + "Index"
  }

  function MaxAttempts(step: Step): nat {
    if step.retries + 1 <= 0 then 1 else step.retries + 1
  }

  function SaveKey(step: Step, name: string): string {
    if step.saveAs == "" then name else step.saveAs
  }

  /** There is a table to record step outputs in. */
  predicate HasTable(st: State) {
    "steps" in st.context && st.context["steps"].Table? && st.context["steps"].ref < |st.tables|
  }

  function TableRef(st: State): nat
    requires HasTable(st)
  {
    st.context["steps"].ref
  }

  /** The outputs recorded so far, by step. */
  function Recorded(st: State): map<string, Value> {
    if HasTable(st) then st.tables[TableRef(st)] else map[]
  }

  /** The table is written in place, or created when there is none. */
  function Record(st: State, step: Step, name: string, output: Value): State {
    if HasTable(st)
    then st.(tables := st.tables[TableRef(st) := st.tables[TableRef(st)][SaveKey(step, name) := output]])
    else st.(tables := st.tables + [map[SaveKey(step, name) := output]],
             context := st.context["steps" := Table(|st.tables|)])
  }

  /** A new table that says what went wrong. */
  function WithError(st: State, error: string): State {
    st.(tables := st.tables + [map["error" := Value.Text(error)]])
  }

  function ErrorTable(st: State): Value {
    Table(|st.tables|)
  }

  function RecordError(st: State, step: Step, name: string, error: string): State {
    Record(WithError(st, error), step, name, ErrorTable(st))
  }

  /** The state in which the body starts on an item; under the alias `steps` a table is lent. */
  function Put(st: State, step: Step, item: Value, index: nat): State {
    st.(context := st.context[Alias(step) := item][IndexKey(step) := Number(index)],
        lent := st.lent + (if Alias(step) == "steps" && item.Table? then {item.ref} else {}))
  }

  function Restore(context: Context, key: string, original: Context): Context {
    if key in original then context[key := original[key]] else context - {key}
  }

  function RestoreAliases(context: Context, step: Step, original: Context): Context {
    Restore(Restore(context, Alias(step), original), IndexKey(step), original)
  }

  function Logged(st: State, entry: StepResult): State {
    st.(log := st.log + [entry])
  }

  /** The first case for the text, or the number of cases. */
  function FirstMatch(cases: seq<Case>, text: string): (index: nat)
    ensures index <= |cases| && (index < |cases| ==> cases[index].pattern == text)
    ensures forall i :: 0 <= i < index ==> cases[i].pattern != text
  {
    if cases == [] || cases[0].pattern == text then 0 else 1 + FirstMatch(cases[1..], text)
  }

  datatype Tries = Tries(reply: Reply, attempts: nat, calls: nat)

  /** A refusal ends the attempts at once; after the last failure the counter is one too high. */
  function Attempts(world: World, step: Step, attempt: nat, context: Context, tables: Tables, calls: nat): Tries
    requires 1 <= attempt <= MaxAttempts(step)
    decreases MaxAttempts(step) - attempt
  {
    var reply := world.attempt(calls, step, context, tables);
    if !reply.Broken? then Tries(reply, attempt, calls + 1)
    else if attempt == MaxAttempts(step) then Tries(reply, attempt + 1, calls + 1)
    else Attempts(world, step, attempt + 1, context, tables, calls + 1)
  }

  function RunAction(world: World, step: Step, name: string, st: State): Ran {
    var tries := Attempts(world, step, 1, st.context, st.tables, st.calls);
    var st := st.(calls := tries.calls);
    match tries.reply
    case Refused(error) => Ran(Failed(error), st)
    case Broken(error) =>
      if step.continueOnError then
        var recorded := RecordError(st, step, name, error);
        Ran(Finished(Nil), Logged(recorded.(context := recorded.context["lastError" := Value.Text(error)]),
          StepResult(name, step.kind, Errored, tries.attempts, Nil, error)))
      else Ran(Failed("skills: workflow step " + name + " failed: " + error), st)
    case Output(raw) =>
      var decoded := world.decode(step, name, raw, |st.tables|);
      if decoded.outcome.Failed? then Ran(decoded.outcome, st)
      else Ran(decoded.outcome,
        Logged(Record(st.(tables := st.tables + decoded.tables), step, name, decoded.outcome.value),
          StepResult(name, step.kind, Succeeded, tries.attempts, decoded.outcome.value, "")))
  }

  /** The steps from `index` on; `last` is the latest output before them. */
  function RunSteps(world: World, steps: seq<Step>, index: nat, last: Value, prefix: string, st: State): Ran
    requires index <= |steps|
    decreases steps, 0, |steps| - index
  {
    if index == |steps| then Ran(Finished(last), st)
    else
      var one := RunStep(world, steps[index], index, prefix, st);
      if one.outcome.Failed? then one
      else if one.outcome.value == Nil then RunSteps(world, steps, index + 1, last, prefix, one.state)
      else RunSteps(world, steps, index + 1, one.outcome.value, prefix, Noted(one))
  }

  function Noted(one: Ran): State
    requires one.outcome.Finished?
  {
    if one.outcome.value == Nil then one.state
    else one.state.(context := one.state.context["last" := one.outcome.value])
  }

  function RunStep(world: World, step: Step, index: nat, prefix: string, st: State): Ran
    decreases step, 2
  {
    var name := FullName(step, index, prefix);
    if step.condition != "" && !world.holds(step.condition, st.context, st.tables) then
      Ran(Finished(Nil), Logged(st, StepResult(name, step.kind, Skipped, 0, Nil, "")))
    else match step.kind
      case ForEach => RunForEach(world, step, name, st)
      case Switch => RunSwitch(world, step, name, st)
      case Shell => RunAction(world, step, name, st)
      case Http => RunAction(world, step, name, st)
      case Unknown(text) => Ran(Failed("skills: unknown workflow step type " + text), st)
  }

  function RunForEach(world: World, step: Step, name: string, st: State): Ran
    decreases step, 1
  {
    match world.find(step.source, st.context, st.tables)
    case NotFound => Ran(Failed("skills: workflow step " + name + " forEach source not found: " + step.source), st)
    case NotArray => Ran(Failed("skills: workflow step " + name + " forEach source is not an array"), st)
    case Items(items) =>
      var loop := RunItems(world, step, items, 0, [], name, st);
      Ran(loop.outcome, loop.state.(context := RestoreAliases(loop.state.context, step, st.context)))
  }

  function BodyPrefix(name: string, index: nat): string {
    name + "[" + Digits(index) + "]."
  }

  /** The items from `index` on and the entry behind them. */
  function RunItems(
    world: World, step: Step, items: seq<Value>, index: nat, collected: seq<Value>, name: string, st: State): Ran
    requires index <= |items|
    decreases step, 0, |items| - index
  {
    if index == |items| then
      Ran(Finished(List(collected)), Logged(Record(st, step, name, List(collected)),
        StepResult(name, step.kind, Succeeded, 1, List(collected), "")))
    else
      var body := RunBody(world, step, items[index], index, name, st);
      if body.outcome.Failed? && !step.continueOnError then body
      else RunItems(world, step, items, index + 1, collected + [Entry(body)], name, Collected(body))
  }

  function RunBody(world: World, step: Step, item: Value, index: nat, name: string, st: State): Ran
    decreases step, 0, 0
  {
    RunSteps(world, step.steps, 0, Nil, BodyPrefix(name, index), Put(st, step, item, index))
  }

  /** What a body contributes: its output, or a new table with its error. */
  function Entry(body: Ran): Value {
    if body.outcome.Failed? then ErrorTable(body.state) else body.outcome.value
  }

  function Collected(body: Ran): State {
    if body.outcome.Failed? then WithError(body.state, body.outcome.error) else body.state
  }

  function RunSwitch(world: World, step: Step, name: string, st: State): Ran
    decreases step, 1
  {
    var ran :=
      var first := FirstMatch(step.cases, world.render(step.switchOn, st.context, st.tables));
      if first < |step.cases| && step.cases[first].body.Present?
      then RunSteps(world, step.cases[first].body.steps, 0, Nil, name + ".", st)
      else RunSteps(world, step.fallback, 0, Nil, name + ".", st);
    if ran.outcome.Finished? then
      Ran(ran.outcome, Logged(Record(ran.state, step, name, ran.outcome.value),
        StepResult(name, step.kind, Succeeded, 1, ran.outcome.value, "")))
    else if step.continueOnError then
      Ran(Finished(Nil), Logged(RecordError(ran.state, step, name, ran.outcome.error),
        StepResult(name, step.kind, Errored, 1, Nil, ran.outcome.error)))
    else ran
  }

  // ---------------------------------------------------------------------------------------
  // The interpreter, updating its context and its log in place.
  // ---------------------------------------------------------------------------------------

  /** Where a workflow starts: on its arguments and a new table of step outputs. */
  function Started(arguments: Context, tables: Tables): State {
    State(arguments["steps" := Table(|tables|)], tables + [map[]], {}, [], 0)
  }

  class Interpreter {
    var context: Context
    var tables: Tables
    var results: seq<StepResult>
    var calls: nat
    ghost var lent: set<nat>

    ghost function Now(): State
      reads this
    {
      State(context, tables, lent, results, calls)
    }

    constructor (arguments: Context, tables: Tables)
      ensures Now() == Started(arguments, tables)
    {
      context := arguments["steps" := Table(|tables|)];
      this.tables := tables + [map[]];
      results, calls, lent := [], 0, {};
    }

    method RecordStepOutput(step: Step, name: string, output: Value)
      modifies this`context, this`tables
      ensures Now() == Record(old(Now()), step, name, output)
    {
      var saveAs := step.saveAs;
      if saveAs == "" {
        saveAs := name;
      }
      if !("steps" in context && context["steps"].Table? && context["steps"].ref < |tables|) {
        context := context["steps" := Table(|tables|)];
        tables := tables + [map[]];
      }
      var ref := context["steps"].ref;
      tables := tables[ref := tables[ref][saveAs := output]];
    }

    /** A new table that says what went wrong. */
    method NewErrorTable(error: string) returns (table: Value)
      modifies this`tables
      ensures table == ErrorTable(old(Now())) && Now() == WithError(old(Now()), error)
    {
      table := Table(|tables|);
      tables := tables + [map["error" := Value.Text(error)]];
    }

    method ExecuteWorkflowSteps(world: World, steps: seq<Step>, prefix: string) returns (outcome: Outcome)
      modifies this
      ensures Ran(outcome, Now()) == RunSteps(world, steps, 0, Nil, prefix, old(Now()))
      decreases steps, 0, 0
    {
      var last := Nil;
      for index := 0 to |steps|
        invariant RunSteps(world, steps, index, last, prefix, Now()) ==
          RunSteps(world, steps, 0, Nil, prefix, old(Now()))
      {
        var one := ExecuteWorkflowStep(world, steps[index], index, prefix);
        if one.Failed? {
          return one;
        }
        if one.value != Nil {
          last := one.value;
          context := context["last" := last];
        }
      }
      return Finished(last);
    }

    method ExecuteWorkflowStep(world: World, step: Step, index: nat, prefix: string) returns (outcome: Outcome)
      modifies this
      ensures Ran(outcome, Now()) == RunStep(world, step, index, prefix, old(Now()))
      decreases step, 2, 0
    {
      var name := FullName(step, index, prefix);
      if step.condition != "" && !world.holds(step.condition, context, tables) {
        results := results + [StepResult(name, step.kind, Skipped, 0, Nil, "")];
        return Finished(Nil);
      }
      match step.kind {
        case ForEach => outcome := ExecuteForEachStep(world, step, name);
        case Switch => outcome := ExecuteSwitchStep(world, step, name);
        case Shell => outcome := ExecuteActionStep(world, step, name);
        case Http => outcome := ExecuteActionStep(world, step, name);
        case Unknown(text) => outcome := Failed("skills: unknown workflow step type " + text);
      }
    }

    method ExecuteActionStep(world: World, step: Step, name: string) returns (outcome: Outcome)
      modifies this
      ensures Ran(outcome, Now()) == RunAction(world, step, name, old(Now()))
    {
      var maxAttempts := step.retries + 1;
      if maxAttempts <= 0 {
        maxAttempts := 1;
      }
      var attempts: nat := 1;
      var reply := Broken("");
      while attempts <= maxAttempts
        invariant 1 <= attempts <= maxAttempts + 1 && maxAttempts == MaxAttempts(step)
        invariant context == old(context) && tables == old(tables) && results == old(results) && lent == old(lent)
        invariant attempts <= maxAttempts ==>
          Attempts(world, step, attempts, context, tables, calls) ==
          Attempts(world, step, 1, context, tables, old(calls))
        invariant attempts == maxAttempts + 1 ==>
          reply.Broken? && Attempts(world, step, 1, context, tables, old(calls)) == Tries(reply, attempts, calls)
      {
        reply := world.attempt(calls, step, context, tables);
        calls := calls + 1;
        if reply.Refused? {
          return Failed(reply.error);
        }
        if reply.Output? {
          break;
        }
        attempts := attempts + 1;
      }
      if reply.Broken? {
        if !step.continueOnError {
          return Failed("skills: workflow step " + name + " failed: " + reply.error);
        }
        var table := NewErrorTable(reply.error);
        RecordStepOutput(step, name, table);
        context := context["lastError" := Value.Text(reply.error)];
        results := results + [StepResult(name, step.kind, Errored, attempts, Nil, reply.error)];
        return Finished(Nil);
      }
      var decoded := world.decode(step, name, reply.raw, |tables|);
      outcome := decoded.outcome;
      if outcome.Failed? {
        return;
      }
      tables := tables + decoded.tables;
      RecordStepOutput(step, name, outcome.value);
      results := results + [StepResult(name, step.kind, Succeeded, attempts, outcome.value, "")];
    }

    method ExecuteForEachStep(world: World, step: Step, name: string) returns (outcome: Outcome)
      modifies this
      ensures Ran(outcome, Now()) == RunForEach(world, step, name, old(Now()))
      decreases step, 1, 0
    {
      var lookup := world.find(step.source, context, tables);
      if lookup.NotFound? {
        return Failed("skills: workflow step " + name + " forEach source not found: " + step.source);
      }
      if lookup.NotArray? {
        return Failed("skills: workflow step " + name + " forEach source is not an array");
      }
      var items, original := lookup.items, context;
      outcome := ExecuteItems(world, step, items, name);
      context := RestoreAliases(context, step, original);
    }

    /** The loop of a forEach step, up to the deferred restoring of its aliases. */
    method ExecuteItems(world: World, step: Step, items: seq<Value>, name: string) returns (outcome: Outcome)
      modifies this
      ensures Ran(outcome, Now()) == RunItems(world, step, items, 0, [], name, old(Now()))
      decreases step, 0, 1
    {
      var collected: seq<Value> := [];
      for index := 0 to |items|
        invariant RunItems(world, step, items, index, collected, name, Now()) ==
          RunItems(world, step, items, 0, [], name, old(Now()))
      {
        lent := Put(Now(), step, items[index], index).lent;
        context := context[Alias(step) := items[index]][IndexKey(step) := Number(index)];
        var body := ExecuteWorkflowSteps(world, step.steps, BodyPrefix(name, index));
        if body.Failed? && !step.continueOnError {
          return body;
        }
        if body.Failed? {
          var table := NewErrorTable(body.error);
          collected := collected + [table];
        } else {
          collected := collected + [body.value];
        }
      }
      RecordStepOutput(step, name, List(collected));
      results := results + [StepResult(name, step.kind, Succeeded, 1, List(collected), "")];
      return Finished(List(collected));
    }

    method ExecuteSwitchStep(world: World, step: Step, name: string) returns (outcome: Outcome)
      modifies this
      ensures Ran(outcome, Now()) == RunSwitch(world, step, name, old(Now()))
      decreases step, 1, 0
    {
      var text := world.render(step.switchOn, context, tables);
      var first := 0;
      while first < |step.cases| && step.cases[first].pattern != text
        invariant first <= |step.cases| && forall i :: 0 <= i < first ==> step.cases[i].pattern != text
      {
        first := first + 1;
      }
      assert first == FirstMatch(step.cases, text);
      if first < |step.cases| && step.cases[first].body.Present? {
        outcome := ExecuteWorkflowSteps(world, step.cases[first].body.steps, name + ".");
      } else {
        outcome := ExecuteWorkflowSteps(world, step.fallback, name + ".");
      }
      if outcome.Finished? {
        RecordStepOutput(step, name, outcome.value);
        results := results + [StepResult(name, step.kind, Succeeded, 1, outcome.value, "")];
      } else if step.continueOnError {
        var table := NewErrorTable(outcome.error);
        RecordStepOutput(step, name, table);
        results := results + [StepResult(name, step.kind, Errored, 1, Nil, outcome.error)];
        outcome := Finished(Nil);
      }
    }
  }
  // ---------------------------------------------------------------------------------------
  // What every run keeps.
  // ---------------------------------------------------------------------------------------

  ghost predicate SameAt(before: Context, after: Context, key: string) {
    (key in before <==> key in after) && (key in before ==> before[key] == after[key])
  }

  ghost predicate Shared(key: string) {
    key == "last" || key == "lastError" || key == "steps"
  }

  ghost predicate Kept(before: Context, after: Context) {
    forall key: string :: !Shared(key) ==> SameAt(before, after, key)
  }

  ghost predicate LogGrows(before: seq<StepResult>, after: seq<StepResult>, prefix: string) {
    before <= after && forall i :: |before| <= i < |after| ==> prefix <= after[i].name
  }

  /** Step outputs go where they went before, or into a new table when there was none. */
  ghost predicate SameTable(before: State, after: State) {
    if HasTable(before) then SameAt(before.context, after.context, "steps")
    else SameAt(before.context, after.context, "steps") || (HasTable(after) && TableRef(after) >= |before.tables|)
  }

  /** The table of step outputs is the one there was, a lent one, or a new one. */
  ghost predicate KnownTable(before: State, after: State) {
    HasTable(after) ==>
      TableRef(after) >= |before.tables| || TableRef(after) in after.lent ||
      (HasTable(before) && TableRef(after) == TableRef(before))
  }

  /** No table forgets a key, and none changes but the table of step outputs and lent ones. */
  ghost predicate TablesKept(before: State, after: State) {
    |before.tables| <= |after.tables| && before.lent <= after.lent && before.calls <= after.calls &&
    forall ref: nat :: ref < |before.tables| ==>
      before.tables[ref].Keys <= after.tables[ref].Keys &&
      (after.tables[ref] == before.tables[ref] || ref in after.lent || (HasTable(before) && ref == TableRef(before)))
  }

  /** Running under `prefix` leaves the context as it was but for the shared keys, keeps the tables, and
      only appends to the log, under names that start with the prefix. */
  ghost predicate Tidy(before: State, after: State, prefix: string) {
    Kept(before.context, after.context) && SameTable(before, after) && TablesKept(before, after) &&
    LogGrows(before.log, after.log, prefix)
  }

  lemma {:induction false} TablesKeptTwice(before: State, middle: State, after: State)
    requires TablesKept(before, middle) && KnownTable(before, middle) && TablesKept(middle, after)
    ensures TablesKept(before, after)
  {
    forall ref: nat | ref < |before.tables|
      ensures before.tables[ref].Keys <= after.tables[ref].Keys
      ensures after.tables[ref] == before.tables[ref] || ref in after.lent ||
              (HasTable(before) && ref == TableRef(before))
    {
      assert before.tables[ref].Keys <= middle.tables[ref].Keys <= after.tables[ref].Keys;
    }
  }

  lemma {:induction false} LogGrowsTwice(
    before: seq<StepResult>, middle: seq<StepResult>, after: seq<StepResult>, prefix: string, inner: string)
    requires LogGrows(before, middle, prefix) && LogGrows(middle, after, inner) && prefix <= inner
    ensures LogGrows(before, after, prefix)
  {
    forall i | |before| <= i < |after| ensures prefix <= after[i].name {
      if i < |middle| { assert after[i] == middle[i]; } else { assert prefix <= inner <= after[i].name; }
    }
  }

  lemma {:induction false} TidyTwice(before: State, middle: State, after: State, prefix: string, inner: string)
    requires Tidy(before, middle, prefix) && Tidy(middle, after, inner) && prefix <= inner
    ensures Tidy(before, after, prefix)
  {
    TablesKeptTwice(before, middle, after);
    LogGrowsTwice(before.log, middle.log, after.log, prefix, inner);
    forall key: string | !Shared(key) ensures SameAt(before.context, after.context, key) {
      assert SameAt(before.context, middle.context, key) && SameAt(middle.context, after.context, key);
    }
  }

  lemma {:induction false} RecordIsTidy(
    st: State, step: Step, name: string, output: Value, entry: StepResult, prefix: string)
    requires prefix <= name && entry.name == name
    ensures Tidy(st, Logged(Record(st, step, name, output), entry), prefix)
    ensures Record(st, step, name, output).lent == st.lent
  {
  }

  lemma {:induction false} AddingTablesIsTidy(st: State, more: Tables, calls: nat, prefix: string)
    requires calls >= st.calls
    ensures Tidy(st, st.(tables := st.tables + more, calls := calls), prefix)
  {
    var after := st.(tables := st.tables + more, calls := calls);
    assert forall ref: nat :: ref < |st.tables| ==> after.tables[ref] == st.tables[ref];
  }

  lemma {:induction false} RecordErrorIsTidy(
    st: State, step: Step, name: string, error: string, entry: StepResult, prefix: string)
    requires prefix <= name && entry.name == name
    ensures Tidy(st, Logged(RecordError(st, step, name, error), entry), prefix)
    ensures RecordError(st, step, name, error).lent == st.lent
  {
    var widened := WithError(st, error);
    AddingTablesIsTidy(st, [map["error" := Value.Text(error)]], st.calls, prefix);
    RecordIsTidy(widened, step, name, ErrorTable(st), entry, prefix);
    TidyTwice(st, widened, Logged(RecordError(st, step, name, error), entry), prefix, prefix);
  }

  lemma {:induction false} ActionIsTidy(world: World, step: Step, name: string, st: State, prefix: string)
    requires prefix <= name
    ensures Tidy(st, RunAction(world, step, name, st).state, prefix)
    ensures RunAction(world, step, name, st).state.lent == st.lent
  {
    var tries := Attempts(world, step, 1, st.context, st.tables, st.calls);
    AttemptsAreBounded(world, step, 1, st.context, st.tables, st.calls);
    var called := st.(calls := tries.calls);
    assert Tidy(st, called, prefix);
    var after := RunAction(world, step, name, st).state;
    if tries.reply.Broken? && step.continueOnError {
      var error := tries.reply.error;
      var entry := StepResult(name, step.kind, Errored, tries.attempts, Nil, error);
      RecordErrorIsTidy(called, step, name, error, entry, prefix);
      var recorded := Logged(RecordError(called, step, name, error), entry);
      assert after == recorded.(context := recorded.context["lastError" := Value.Text(error)]);
      assert Tidy(recorded, after, prefix);
      TidyTwice(called, recorded, after, prefix, prefix);
      TidyTwice(st, called, after, prefix, prefix);
    } else if tries.reply.Output? {
      var decoded := world.decode(step, name, tries.reply.raw, |st.tables|);
      if decoded.outcome.Finished? {
        var widened := called.(tables := called.tables + decoded.tables);
        AddingTablesIsTidy(st, decoded.tables, tries.calls, prefix);
        var entry := StepResult(name, step.kind, Succeeded, tries.attempts, decoded.outcome.value, "");
        RecordIsTidy(widened, step, name, decoded.outcome.value, entry, prefix);
        TidyTwice(st, widened, after, prefix, prefix);
      }
    }
  }

  /** The attempts stop at the first one that is not a failure, and fail only when all of them do. */
  lemma {:induction false} AttemptsAreBounded(
    world: World, step: Step, attempt: nat, context: Context, tables: Tables, calls: nat)
    requires 1 <= attempt <= MaxAttempts(step)
    ensures var tries := Attempts(world, step, attempt, context, tables, calls); var made := tries.calls - calls;
      1 <= made <= MaxAttempts(step) - attempt + 1 &&
      (forall i: nat :: calls <= i < calls + made - 1 ==> world.attempt(i, step, context, tables).Broken?) &&
      tries.reply == world.attempt(calls + made - 1, step, context, tables) &&
      (tries.reply.Broken? ==> made == MaxAttempts(step) - attempt + 1) &&
      tries.attempts == attempt + made - (if tries.reply.Broken? then 0 else 1)
    decreases MaxAttempts(step) - attempt
  {
    if world.attempt(calls, step, context, tables).Broken? && attempt < MaxAttempts(step) {
      AttemptsAreBounded(world, step, attempt + 1, context, tables, calls + 1);
    }
  }

  /** Some loop among the steps, at any depth, shows its items under the alias. */
  predicate AnyLoopUnder(steps: seq<Step>, alias: string)
    decreases steps, 0
  {
    exists i :: 0 <= i < |steps| && LoopUnder(steps[i], alias)
  }

  predicate LoopUnder(step: Step, alias: string)
    decreases step, 1
  {
    (step.kind == ForEach && (Alias(step) == alias || AnyLoopUnder(step.steps, alias))) ||
    (step.kind == Switch &&
      (AnyLoopUnder(step.fallback, alias) ||
       exists i :: 0 <= i < |step.cases| && step.cases[i].body.Present? &&
         AnyLoopUnder(step.cases[i].body.steps, alias)))
  }

  /** Any list of steps, nested to any depth, failing or not. Without a loop under the alias `steps`, no
      table but that of the step outputs changes. */
  lemma {:induction false} StepsAreTidy(
    world: World, steps: seq<Step>, index: nat, last: Value, prefix: string, st: State)
    requires index <= |steps|
    ensures Tidy(st, RunSteps(world, steps, index, last, prefix, st).state, prefix)
    ensures !AnyLoopUnder(steps, "steps") ==> RunSteps(world, steps, index, last, prefix, st).state.lent == st.lent
    decreases steps, 0, |steps| - index
  {
    if index < |steps| {
      StepIsTidy(world, steps[index], index, prefix, st);
      var one := RunStep(world, steps[index], index, prefix, st);
      if one.outcome.Finished? {
        var next := Noted(one);
        assert Tidy(one.state, next, prefix);
        TidyTwice(st, one.state, next, prefix, prefix);
        var last' := if one.outcome.value == Nil then last else one.outcome.value;
        StepsAreTidy(world, steps, index + 1, last', prefix, next);
        TidyTwice(st, next, RunSteps(world, steps, index, last, prefix, st).state, prefix, prefix);
      }
    } else {
      assert Tidy(st, st, prefix);
    }
  }

  lemma {:induction false} StepIsTidy(world: World, step: Step, index: nat, prefix: string, st: State)
    ensures Tidy(st, RunStep(world, step, index, prefix, st).state, prefix)
    ensures !LoopUnder(step, "steps") ==> RunStep(world, step, index, prefix, st).state.lent == st.lent
    decreases step, 2, 0
  {
    var name := FullName(step, index, prefix);
    if step.condition == "" || world.holds(step.condition, st.context, st.tables) {
      match step.kind {
        case ForEach => ForEachIsTidy(world, step, name, st, prefix);
        case Switch => SwitchIsTidy(world, step, name, st, prefix);
        case Shell => ActionIsTidy(world, step, name, st, prefix);
        case Http => ActionIsTidy(world, step, name, st, prefix);
        case Unknown(_) => assert Tidy(st, st, prefix);
      }
    }
  }

  lemma {:induction false} SwitchIsTidy(world: World, step: Step, name: string, st: State, prefix: string)
    requires prefix <= name && step.kind == Switch
    ensures Tidy(st, RunSwitch(world, step, name, st).state, prefix)
    ensures !LoopUnder(step, "steps") ==> RunSwitch(world, step, name, st).state.lent == st.lent
    decreases step, 1, 0
  {
    var first := FirstMatch(step.cases, world.render(step.switchOn, st.context, st.tables));
    var ran: Ran;
    if first < |step.cases| && step.cases[first].body.Present? {
      StepsAreTidy(world, step.cases[first].body.steps, 0, Nil, name + ".", st);
      ran := RunSteps(world, step.cases[first].body.steps, 0, Nil, name + ".", st);
    } else {
      StepsAreTidy(world, step.fallback, 0, Nil, name + ".", st);
      ran := RunSteps(world, step.fallback, 0, Nil, name + ".", st);
    }
    assert prefix <= name <= name + ".";
    assert Tidy(st, st, prefix);
    TidyTwice(st, st, ran.state, prefix, name + ".");
    var final := RunSwitch(world, step, name, st).state;
    if ran.outcome.Finished? {
      var entry := StepResult(name, step.kind, Succeeded, 1, ran.outcome.value, "");
      RecordIsTidy(ran.state, step, name, ran.outcome.value, entry, prefix);
      TidyTwice(st, ran.state, final, prefix, prefix);
    } else if step.continueOnError {
      var entry := StepResult(name, step.kind, Errored, 1, Nil, ran.outcome.error);
      RecordErrorIsTidy(ran.state, step, name, ran.outcome.error, entry, prefix);
      TidyTwice(st, ran.state, final, prefix, prefix);
    }
  }

  /** What a loop over items does until its aliases are restored. */
  ghost predicate LoopKept(before: State, after: State, step: Step, name: string) {
    (forall key: string :: !Shared(key) && key != Alias(step) && key != IndexKey(step) ==>
      SameAt(before.context, after.context, key)) &&
    TablesKept(before, after) && KnownTable(before, after) && LogGrows(before.log, after.log, name) &&
    (Alias(step) != "steps" ==> SameTable(before, after))
  }

  lemma {:induction false} LoopKeptTwice(before: State, middle: State, after: State, step: Step, name: string)
    requires LoopKept(before, middle, step, name) && LoopKept(middle, after, step, name)
    ensures LoopKept(before, after, step, name)
  {
    TablesKeptTwice(before, middle, after);
    LogGrowsTwice(before.log, middle.log, after.log, name, name);
    forall key: string | !Shared(key) && key != Alias(step) && key != IndexKey(step)
      ensures SameAt(before.context, after.context, key)
    {
      assert SameAt(before.context, middle.context, key) && SameAt(middle.context, after.context, key);
    }
  }

  lemma {:induction false} TidyIsLoopKept(before: State, after: State, step: Step, name: string)
    requires Tidy(before, after, name)
    ensures LoopKept(before, after, step, name)
  {
  }

  lemma {:induction false} ItemsAreTidy(
    world: World, step: Step, items: seq<Value>, index: nat, collected: seq<Value>, name: string, st: State)
    requires index <= |items|
    ensures LoopKept(st, RunItems(world, step, items, index, collected, name, st).state, step, name)
    ensures Alias(step) != "steps" && !AnyLoopUnder(step.steps, "steps") ==>
      RunItems(world, step, items, index, collected, name, st).state.lent == st.lent
    decreases step, 0, |items| - index
  {
    if index < |items| {
      var body := RunBody(world, step, items[index], index, name, st);
      BodyIsTidy(world, step, items[index], index, name, st);
      if body.outcome.Finished? || step.continueOnError {
        CollectedIsTidy(body, step, name);
        LoopKeptTwice(st, body.state, Collected(body), step, name);
        ItemsAreTidy(world, step, items, index + 1, collected + [Entry(body)], name, Collected(body));
        LoopKeptTwice(st, Collected(body), RunItems(world, step, items, index, collected, name, st).state, step, name);
      }
    } else {
      var entry := StepResult(name, step.kind, Succeeded, 1, List(collected), "");
      RecordIsTidy(st, step, name, List(collected), entry, name);
      TidyIsLoopKept(st, RunItems(world, step, items, index, collected, name, st).state, step, name);
    }
  }

  lemma {:induction false} CollectedIsTidy(body: Ran, step: Step, name: string)
    ensures LoopKept(body.state, Collected(body), step, name) && Collected(body).lent == body.state.lent
  {
    if body.outcome.Failed? {
      AddingTablesIsTidy(body.state, [map["error" := Value.Text(body.outcome.error)]], body.state.calls, name);
    } else {
      assert Tidy(body.state, body.state, name);
    }
    TidyIsLoopKept(body.state, Collected(body), step, name);
  }

  lemma {:induction false} BodyIsTidy(world: World, step: Step, item: Value, index: nat, name: string, st: State)
    ensures LoopKept(st, RunBody(world, step, item, index, name, st).state, step, name)
    ensures Tidy(Put(st, step, item, index), RunBody(world, step, item, index, name, st).state, name)
    ensures Alias(step) != "steps" && !AnyLoopUnder(step.steps, "steps") ==>
      RunBody(world, step, item, index, name, st).state.lent == st.lent
    decreases step, 0, 0
  {
    var inner, prefix := Put(st, step, item, index), BodyPrefix(name, index);
    var after := RunBody(world, step, item, index, name, st).state;
    StepsAreTidy(world, step.steps, 0, Nil, prefix, inner);
    assert name <= prefix && Tidy(inner, inner, name);
    TidyTwice(inner, inner, after, name, prefix);
    TidyIsLoopKept(inner, after, step, name);
    PutIsLoopKept(st, step, item, index, name);
    LoopKeptTwice(st, inner, after, step, name);
  }

  lemma {:induction false} PutIsLoopKept(st: State, step: Step, item: Value, index: nat, name: string)
    ensures LoopKept(st, Put(st, step, item, index), step, name)
  {
    IndexKeyIsNotSteps(step);
  }

  lemma {:induction false} IndexKeyIsNotSteps(step: Step)
    ensures IndexKey(step) != "steps" && IndexKey(step) != Alias(step)
  {
    assert IndexKey(step)[|IndexKey(step)| - 1] == 'x';
    assert |IndexKey(step)| == |Alias(step)| + 5;
  }

  lemma {:induction false} ForEachIsTidy(world: World, step: Step, name: string, st: State, prefix: string)
    requires prefix <= name && step.kind == ForEach
    ensures Tidy(st, RunForEach(world, step, name, st).state, prefix)
    ensures SameAt(st.context, RunForEach(world, step, name, st).state.context, "steps") ||
            (!HasTable(st) && Alias(step) != "steps")
    ensures !LoopUnder(step, "steps") ==> RunForEach(world, step, name, st).state.lent == st.lent
    decreases step, 1, 0
  {
    var lookup := world.find(step.source, st.context, st.tables);
    if lookup.Items? {
      ItemsAreTidy(world, step, lookup.items, 0, [], name, st);
      var loop := RunItems(world, step, lookup.items, 0, [], name, st).state;
      RestoringIsTidy(st, loop, step, name);
      assert Tidy(st, st, prefix);
      TidyTwice(st, st, RunForEach(world, step, name, st).state, prefix, name);
    } else {
      assert Tidy(st, st, prefix);
    }
  }

  lemma {:induction false} RestoringIsTidy(before: State, after: State, step: Step, name: string)
    requires LoopKept(before, after, step, name)
    ensures var restored := after.(context := RestoreAliases(after.context, step, before.context));
      Tidy(before, restored, name) &&
      (Alias(step) == "steps" || HasTable(before) ==> SameAt(before.context, restored.context, "steps"))
  {
    IndexKeyIsNotSteps(step);
    var restored := RestoreAliases(after.context, step, before.context);
    forall key: string | !Shared(key) ensures SameAt(before.context, restored, key) {
      if key != Alias(step) && key != IndexKey(step) {
        assert SameAt(before.context, after.context, key) && SameAt(after.context, restored, key);
      }
    }
    if Alias(step) == "steps" {
      assert SameAt(before.context, restored, "steps");
    } else {
      assert SameAt(after.context, restored, "steps");
    }
  }

  // ---------------------------------------------------------------------------------------
  // What a loop collects, and what is logged.
  // ---------------------------------------------------------------------------------------

  /** The state in which item `k` is put when none before stopped the loop. */
  function Before(world: World, step: Step, items: seq<Value>, k: nat, name: string, st: State): State
    requires k <= |items|
    decreases k, 0
  {
    if k == 0 then st else Collected(BodyAt(world, step, items, k - 1, name, st))
  }

  function BodyAt(world: World, step: Step, items: seq<Value>, k: nat, name: string, st: State): Ran
    requires k < |items|
    decreases k, 1
  {
    RunBody(world, step, items[k], k, name, Before(world, step, items, k, name, st))
  }

  ghost predicate EveryBodyFinishes(world: World, step: Step, items: seq<Value>, name: string, st: State) {
    forall k :: 0 <= k < |items| ==> BodyAt(world, step, items, k, name, st).outcome.Finished?
  }

  /** The entry of every item before `count`, none of which stopped the loop. */
  ghost predicate Collects(
    world: World, step: Step, items: seq<Value>, count: nat, collected: seq<Value>, name: string, st: State)
  {
    count == |collected| <= |items| &&
    forall k :: 0 <= k < count ==>
      var body := BodyAt(world, step, items, k, name, st);
      (body.outcome.Failed? ==> step.continueOnError) && collected[k] == Entry(body)
  }

  /** The loop over the items ended regularly, with `collected`. */
  ghost predicate LoopEnded(world: World, step: Step, items: seq<Value>, name: string, st: State, ran: Ran) {
    ran.outcome.Finished? && ran.outcome.value.List? &&
    Collects(world, step, items, |items|, ran.outcome.value.items, name, st) &&
    ran.state == Logged(Record(Before(world, step, items, |items|, name, st), step, name, ran.outcome.value),
      StepResult(name, step.kind, Succeeded, 1, ran.outcome.value, ""))
  }

  lemma {:induction false} ItemsCollect(
    world: World, step: Step, items: seq<Value>, index: nat, collected: seq<Value>, name: string, st: State)
    requires Collects(world, step, items, index, collected, name, st)
    ensures var before := Before(world, step, items, index, name, st);
      var ran := RunItems(world, step, items, index, collected, name, before);
      (ran.outcome.Finished? <==> step.continueOnError || EveryBodyFinishes(world, step, items, name, st)) &&
      (ran.outcome.Finished? ==> LoopEnded(world, step, items, name, st, ran))
    decreases |items| - index
  {
    if index < |items| {
      var body := BodyAt(world, step, items, index, name, st);
      if body.outcome.Finished? || step.continueOnError {
        assert Before(world, step, items, index + 1, name, st) == Collected(body);
        ItemsCollect(world, step, items, index + 1, collected + [Entry(body)], name, st);
      }
    } else if !step.continueOnError {
      assert EveryBodyFinishes(world, step, items, name, st);
    }
  }

  /** A loop over found items finishes if and only if its errors are tolerated or no body fails; then its
      output lists exactly one entry per item, in order: the body's output, or its error. */
  lemma {:induction false} ForEachCollectsEveryItem(world: World, step: Step, name: string, st: State)
    requires world.find(step.source, st.context, st.tables).Items?
    ensures var items := world.find(step.source, st.context, st.tables).items;
      var ran := RunForEach(world, step, name, st);
      (ran.outcome.Finished? <==> step.continueOnError || EveryBodyFinishes(world, step, items, name, st)) &&
      (ran.outcome.Finished? ==>
        ran.outcome.value.List? && Collects(world, step, items, |items|, ran.outcome.value.items, name, st))
  {
    ItemsCollect(world, step, world.find(step.source, st.context, st.tables).items, 0, [], name, st);
  }

  /** The log has grown, by an entry at the end that reports `output` under `name`. */
  ghost predicate LogEndsWith(before: seq<StepResult>, after: seq<StepResult>, name: string, output: Value) {
    |after| > |before| && after[|after| - 1].name == name && after[|after| - 1].output == output
  }

  /** The name of the step at `index` of its list: its own, or one made of its position. */
  ghost predicate IsNamed(name: string, step: Step, index: nat, prefix: string) {
    (step.name != "" ==> name == prefix + step.name) &&
    (step.name == "" ==> name == prefix + "step" + Digits(index + 1))
  }

  lemma {:induction false} FullNameIsName(step: Step, index: nat, prefix: string)
    ensures IsNamed(FullName(step, index, prefix), step, index, prefix)
  {
    assert prefix + ("step" + Digits(index + 1)) == prefix + "step" + Digits(index + 1);
  }

  lemma {:induction false} FinishedLoopIsLogged(world: World, step: Step, name: string, st: State)
    requires RunForEach(world, step, name, st).outcome.Finished?
    ensures var ran := RunForEach(world, step, name, st);
      LogEndsWith(st.log, ran.state.log, name, ran.outcome.value)
  {
    var items := world.find(step.source, st.context, st.tables).items;
    ItemsCollect(world, step, items, 0, [], name, st);
    BeforeIsKept(world, step, items, |items|, name, st);
  }

  lemma {:induction false} FinishedSwitchIsLogged(world: World, step: Step, name: string, st: State)
    requires RunSwitch(world, step, name, st).outcome.Finished?
    ensures var ran := RunSwitch(world, step, name, st);
      LogEndsWith(st.log, ran.state.log, name, ran.outcome.value)
  {
    var first := FirstMatch(step.cases, world.render(step.switchOn, st.context, st.tables));
    var present := first < |step.cases| && step.cases[first].body.Present?;
    StepsAreTidy(world, if present then step.cases[first].body.steps else step.fallback, 0, Nil, name + ".", st);
  }

  /** A step that finishes leaves, as the last entry of the log, one with its output under its own name. */
  lemma {:induction false} FinishedStepIsLogged(world: World, step: Step, index: nat, prefix: string, st: State)
    requires RunStep(world, step, index, prefix, st).outcome.Finished?
    ensures var ran := RunStep(world, step, index, prefix, st);
      LogEndsWith(st.log, ran.state.log, FullName(step, index, prefix), ran.outcome.value)
    ensures IsNamed(FullName(step, index, prefix), step, index, prefix)
  {
    var name := FullName(step, index, prefix);
    FullNameIsName(step, index, prefix);
    if step.condition == "" || world.holds(step.condition, st.context, st.tables) {
      if step.kind == ForEach {
        FinishedLoopIsLogged(world, step, name, st);
      } else if step.kind == Switch {
        FinishedSwitchIsLogged(world, step, name, st);
      }
    }
  }

  lemma {:induction false} BeforeIsKept(
    world: World, step: Step, items: seq<Value>, k: nat, name: string, st: State)
    requires k <= |items|
    ensures LoopKept(st, Before(world, step, items, k, name, st), step, name)
  {
    if k > 0 {
      var before := Before(world, step, items, k - 1, name, st);
      var body := BodyAt(world, step, items, k - 1, name, st);
      BeforeIsKept(world, step, items, k - 1, name, st);
      BodyIsTidy(world, step, items[k - 1], k - 1, name, before);
      CollectedIsTidy(body, step, name);
      LoopKeptTwice(st, before, body.state, step, name);
      LoopKeptTwice(st, body.state, Collected(body), step, name);
    } else {
      assert Tidy(st, st, name);
      TidyIsLoopKept(st, st, step, name);
    }
  }

  // ---------------------------------------------------------------------------------------
  // Where the output of a step goes.
  // ---------------------------------------------------------------------------------------

  /** `value` is what the step's own entry in the log reports: its output, or a table with its error. */
  ghost predicate Reports(value: Value, own: StepResult, output: Value, tables: Tables) {
    if own.status != Errored then value == output
    else value.Table? && value.ref < |tables| && tables[value.ref] == map["error" := Value.Text(own.error)]
  }

  /** The table holds, under `key`, what the step's own entry in the log reports. */
  ghost predicate RecordedIn(ref: nat, key: string, ran: Ran) {
    ref < |ran.state.tables| && key in ran.state.tables[ref] && ran.state.log != [] && ran.outcome.Finished? &&
    Reports(ran.state.tables[ref][key], ran.state.log[|ran.state.log| - 1], ran.outcome.value, ran.state.tables)
  }

  /** What the context calls its table of step outputs, if anything, exists. */
  ghost predicate TableExists(st: State) {
    "steps" in st.context && st.context["steps"].Table? ==> HasTable(st)
  }

  lemma {:induction false} ErrorIsRecorded(st: State, step: Step, name: string, error: string)
    requires TableExists(st)
    ensures var after, key := RecordError(st, step, name, error), SaveKey(step, name);
      HasTable(after) && key in Recorded(after) && Recorded(after)[key] == ErrorTable(st) &&
      |after.tables| > |st.tables| && after.tables[|st.tables|] == map["error" := Value.Text(error)]
  {
  }

  /** The step's report is in the table of step outputs, under the key it asks for or its name. */
  ghost predicate RecordedUnder(step: Step, name: string, ran: Ran) {
    HasTable(ran.state) && RecordedIn(TableRef(ran.state), if step.saveAs != "" then step.saveAs else name, ran)
  }

  lemma {:induction false} ActionIsRecorded(world: World, step: Step, name: string, st: State)
    requires TableExists(st) && RunAction(world, step, name, st).outcome.Finished?
    ensures RecordedUnder(step, name, RunAction(world, step, name, st))
  {
    var tries := Attempts(world, step, 1, st.context, st.tables, st.calls);
    if tries.reply.Broken? { ErrorIsRecorded(st.(calls := tries.calls), step, name, tries.reply.error); }
  }

  lemma {:induction false} SwitchIsRecorded(world: World, step: Step, name: string, st: State)
    requires TableExists(st) && RunSwitch(world, step, name, st).outcome.Finished?
    ensures RecordedUnder(step, name, RunSwitch(world, step, name, st))
  {
    var first := FirstMatch(step.cases, world.render(step.switchOn, st.context, st.tables));
    var present := first < |step.cases| && step.cases[first].body.Present?;
    var steps := if present then step.cases[first].body.steps else step.fallback;
    StepsAreTidy(world, steps, 0, Nil, name + ".", st);
    var body := RunSteps(world, steps, 0, Nil, name + ".", st);
    assert TableExists(body.state);
    if body.outcome.Failed? { ErrorIsRecorded(body.state, step, name, body.outcome.error); }
  }

  lemma {:induction false} LoopIsRecorded(world: World, step: Step, name: string, st: State)
    requires Alias(step) != "steps" && RunForEach(world, step, name, st).outcome.Finished?
    ensures RecordedUnder(step, name, RunForEach(world, step, name, st))
  {
    ItemsCollect(world, step, world.find(step.source, st.context, st.tables).items, 0, [], name, st);
    IndexKeyIsNotSteps(step);
  }

  /** A finished step that ran has its output, or the error it tolerated, in the table of step outputs;
      but for a loop under the alias `steps`. */
  lemma {:induction false} FinishedStepIsRecorded(world: World, step: Step, index: nat, prefix: string, st: State)
    requires step.condition == "" || world.holds(step.condition, st.context, st.tables)
    requires RunStep(world, step, index, prefix, st).outcome.Finished?
    requires TableExists(st) && !(step.kind == ForEach && Alias(step) == "steps")
    ensures RecordedUnder(step, FullName(step, index, prefix), RunStep(world, step, index, prefix, st))
  {
    var name := FullName(step, index, prefix);
    match step.kind {
      case ForEach => LoopIsRecorded(world, step, name, st);
      case Switch => SwitchIsRecorded(world, step, name, st);
      case Shell => ActionIsRecorded(world, step, name, st);
      case Http => ActionIsRecorded(world, step, name, st);
      case Unknown(_) =>
    }
  }

  /** A finished loop under the alias `steps` writes its output into its last item, if that is a table;
      over no items it writes into the table of step outputs there was. */
  lemma {:induction false} LentTableIsWritten(world: World, step: Step, index: nat, prefix: string, st: State)
    requires step.condition == "" || world.holds(step.condition, st.context, st.tables)
    requires RunStep(world, step, index, prefix, st).outcome.Finished?
    requires step.kind == ForEach && Alias(step) == "steps"
    requires world.find(step.source, st.context, st.tables).Items?
    ensures var items := world.find(step.source, st.context, st.tables).items;
      var ran := RunStep(world, step, index, prefix, st); var key := SaveKey(step, FullName(step, index, prefix));
      SameAt(st.context, ran.state.context, "steps") &&
      (items == [] && HasTable(st) ==> RecordedIn(TableRef(st), key, ran)) &&
      (items != [] ==>
        var last := items[|items| - 1]; last.Table? && last.ref < |st.tables| ==> RecordedIn(last.ref, key, ran))
  {
    var name := FullName(step, index, prefix);
    var items := world.find(step.source, st.context, st.tables).items;
    ItemsCollect(world, step, items, 0, [], name, st);
    ForEachIsTidy(world, step, name, st, prefix);
    if items != [] && items[|items| - 1].Table? && items[|items| - 1].ref < |st.tables| {
      LastItemIsLent(world, step, items, name, st);
    }
  }

  lemma {:induction false} LastItemIsLent(world: World, step: Step, items: seq<Value>, name: string, st: State)
    requires Alias(step) == "steps" && items != []
    requires items[|items| - 1].Table? && items[|items| - 1].ref < |st.tables|
    ensures var after := Before(world, step, items, |items|, name, st);
      HasTable(after) && TableRef(after) == items[|items| - 1].ref
  {
    var k := |items| - 1;
    var before := Before(world, step, items, k, name, st);
    BeforeIsKept(world, step, items, k, name, st);
    BodyIsTidy(world, step, items[k], k, name, before);
    IndexKeyIsNotSteps(step);
    var inner := Put(before, step, items[k], k);
    assert HasTable(inner) && SameAt(inner.context, BodyAt(world, step, items, k, name, st).state.context, "steps");
  }

  /** The value is the output of the last of these entries that has one, and `last` when none has. */
  ghost predicate IsLatest(log: seq<StepResult>, at: seq<nat>, last: Value, value: Value) {
    (forall i :: 0 <= i < |at| ==> at[i] < |log|) &&
    if forall i :: 0 <= i < |at| ==> log[at[i]].output == Nil then value == last
    else exists i :: 0 <= i < |at| && value == log[at[i]].output && value != Nil && NoneBehind(log, at, i)
  }

  ghost predicate NoneBehind(log: seq<StepResult>, at: seq<nat>, i: nat)
    requires forall j :: 0 <= j < |at| ==> at[j] < |log|
  {
    forall j :: i < j < |at| ==> log[at[j]].output == Nil
  }

  /** At the positions `at`, in order, the log behind `start` has the own entries of the steps from `index` on;
      the last of them is the last of the log. */
  ghost predicate OwnEntries(
    log: seq<StepResult>, at: seq<nat>, start: nat, steps: seq<Step>, index: nat, prefix: string)
  {
    index + |at| == |steps| && (forall i, j :: 0 <= i < j < |at| ==> at[i] < at[j]) &&
    (forall i :: 0 <= i < |at| ==> start <= at[i] < |log|) &&
    (forall i :: 0 <= i < |at| ==> IsNamed(log[at[i]].name, steps[index + i], index + i, prefix)) &&
    (at != [] ==> at[|at| - 1] == |log| - 1)
  }

  lemma {:induction false} FirstEntry(
    log: seq<StepResult>, first: nat, at: seq<nat>, start: nat, steps: seq<Step>, index: nat, prefix: string)
    requires index < |steps| && start <= first < |log| && OwnEntries(log, at, first + 1, steps, index + 1, prefix)
    requires IsNamed(log[first].name, steps[index], index, prefix) && (at == [] ==> first == |log| - 1)
    ensures OwnEntries(log, [first] + at, start, steps, index, prefix)
  {
    var all := [first] + at;
    forall i | 0 <= i < |all|
      ensures start <= all[i] < |log| && IsNamed(log[all[i]].name, steps[index + i], index + i, prefix)
    {
      if i > 0 { assert all[i] == at[i - 1] && steps[index + i] == steps[index + 1 + (i - 1)]; }
    }
  }

  lemma {:induction false} LatestBehindFirst(
    log: seq<StepResult>, first: nat, at: seq<nat>, last: Value, value: Value)
    requires first < |log| && IsLatest(log, at, if log[first].output == Nil then last else log[first].output, value)
    ensures IsLatest(log, [first] + at, last, value)
  {
    var all := [first] + at;
    assert forall i :: 0 <= i < |at| ==> all[i + 1] == at[i];
    if forall i :: 0 <= i < |at| ==> log[at[i]].output == Nil {
      assert NoneBehind(log, all, 0) && all[0] == first;
    } else {
      var i :| 0 <= i < |at| && value == log[at[i]].output && value != Nil && NoneBehind(log, at, i);
      assert value == log[all[i + 1]].output;
      assert forall j :: i + 1 < j < |all| ==> all[j] == at[j - 1];
      assert NoneBehind(log, all, i + 1);
    }
  }

  lemma {:induction false} FinishedRunGoesOn(
    world: World, steps: seq<Step>, index: nat, last: Value, prefix: string, st: State)
    requires index < |steps| && RunSteps(world, steps, index, last, prefix, st).outcome.Finished?
    ensures var one := RunStep(world, steps[index], index, prefix, st);
      one.outcome.Finished? && RunSteps(world, steps, index, last, prefix, st) ==
        RunSteps(world, steps, index + 1, if one.outcome.value == Nil then last else one.outcome.value, prefix,
          Noted(one))
  {
  }

  lemma {:induction false} OwnEntryIsFirst(
    step: Step, index: nat, prefix: string, st: State, one: Ran, log: seq<StepResult>)
    requires one.outcome.Finished? && IsNamed(FullName(step, index, prefix), step, index, prefix)
    requires LogEndsWith(st.log, one.state.log, FullName(step, index, prefix), one.outcome.value)
    requires one.state.log <= log
    ensures |st.log| < |one.state.log| && |one.state.log| - 1 < |log|
    ensures log[|one.state.log| - 1].output == one.outcome.value
    ensures IsNamed(log[|one.state.log| - 1].name, step, index, prefix)
  {
    assert log[|one.state.log| - 1] == one.state.log[|one.state.log| - 1];
  }

  /** The entries of the steps of one list, in their order, among what a finished run has added. The outcome is
      the output of the last of them that has one. */
  lemma {:induction false} FinishedStepsAreLogged(
    world: World, steps: seq<Step>, index: nat, last: Value, prefix: string, st: State) returns (at: seq<nat>)
    requires index <= |steps|
    requires RunSteps(world, steps, index, last, prefix, st).outcome.Finished?
    ensures var ran := RunSteps(world, steps, index, last, prefix, st);
      OwnEntries(ran.state.log, at, |st.log|, steps, index, prefix) &&
      IsLatest(ran.state.log, at, last, ran.outcome.value)
    ensures index == |steps| ==> RunSteps(world, steps, index, last, prefix, st).state.log == st.log
    decreases |steps| - index
  {
    at := [];
    if index < |steps| {
      var one := RunStep(world, steps[index], index, prefix, st);
      FinishedRunGoesOn(world, steps, index, last, prefix, st);
      FinishedStepIsLogged(world, steps[index], index, prefix, st);
      var first, last' := |one.state.log| - 1, if one.outcome.value == Nil then last else one.outcome.value;
      var others := FinishedStepsAreLogged(world, steps, index + 1, last', prefix, Noted(one));
      StepsAreTidy(world, steps, index + 1, last', prefix, Noted(one));
      var ran := RunSteps(world, steps, index, last, prefix, st);
      OwnEntryIsFirst(steps[index], index, prefix, st, one, ran.state.log);
      FirstEntry(ran.state.log, first, others, |st.log|, steps, index, prefix);
      LatestBehindFirst(ran.state.log, first, others, last, ran.outcome.value);
      at := [first] + others;
    }
  }

  // ---------------------------------------------------------------------------------------
  // A whole workflow.
  // ---------------------------------------------------------------------------------------

  /** The answer refers to the tables as the workflow leaves them. */
  datatype Answer =
    | Answer(log: seq<StepResult>, output: Value, recorded: Option<Value>, tables: Tables)
    | NoAnswer(error: string)

  function RunMain(world: World, arguments: Context, tables: Tables, main: seq<Step>): Ran {
    RunSteps(world, main, 0, Nil, "", Started(arguments, tables))
  }

  /** The closing steps run on whatever the main steps left, failed or not. */
  function RunFinally(world: World, arguments: Context, tables: Tables, main: seq<Step>, finally: seq<Step>): Ran {
    RunSteps(world, finally, 0, Nil, "finally.", RunMain(world, arguments, tables, main).state)
  }

  /** `violation` is what the output schema finds wrong with an output. */
  method Execute(
    world: World, arguments: Context, tables: Tables, main: seq<Step>, finally: seq<Step>,
    violation: (Value, Tables) -> Option<string>)
    returns (answer: Answer, ghost at: seq<nat>)
    ensures var ran := RunMain(world, arguments, tables, main);
      var closed := RunFinally(world, arguments, tables, main, finally);
      (answer.Answer? <==>
        ran.outcome.Finished? && closed.outcome.Finished? &&
        violation(ran.outcome.value, closed.state.tables).None?) &&
      (answer.Answer? ==>
        answer.output == ran.outcome.value && answer.log == closed.state.log &&
        answer.recorded == Some(Table(|tables|)) && answer.tables == closed.state.tables) &&
      (ran.outcome.Failed? && closed.outcome.Finished? ==> answer == NoAnswer(ran.outcome.error)) &&
      (ran.outcome.Failed? && closed.outcome.Failed? ==> answer == NoAnswer(
        "skills: workflow failed: " + ran.outcome.error + " (finally failed: " + closed.outcome.error + ")")) &&
      (ran.outcome.Finished? && closed.outcome.Failed? ==>
        answer == NoAnswer("skills: workflow finally failed: " + closed.outcome.error))
    ensures answer.Answer? ==>
      var logged := RunMain(world, arguments, tables, main).state.log;
      logged <= answer.log && OwnEntries(logged, at, 0, main, 0, "") && IsLatest(answer.log, at, Nil, answer.output)
  {
    at := [];
    var interpreter := new Interpreter(arguments, tables);
    var mainOutcome := interpreter.ExecuteWorkflowSteps(world, main, "");
    var finallyOutcome := interpreter.ExecuteWorkflowSteps(world, finally, "finally.");
    if mainOutcome.Failed? {
      if finallyOutcome.Failed? {
        answer := NoAnswer(
          "skills: workflow failed: " + mainOutcome.error + " (finally failed: " + finallyOutcome.error + ")");
        return;
      }
      answer := NoAnswer(mainOutcome.error);
      return;
    }
    if finallyOutcome.Failed? {
      answer := NoAnswer("skills: workflow finally failed: " + finallyOutcome.error);
      return;
    }
    var violated := violation(mainOutcome.value, interpreter.tables);
    if violated.Some? {
      answer := NoAnswer("skills: workflow output schema validation failed: " + violated.value);
      return;
    }
    WorkflowIsTidy(world, arguments, tables, main, finally);
    at := MainEntries(world, arguments, tables, main, finally);
    answer := Answer(interpreter.results, mainOutcome.value,
      if "steps" in interpreter.context then Some(interpreter.context["steps"]) else None, interpreter.tables);
  }

  /** The output of the main steps is the last output that their own entries report. */
  lemma {:induction false} MainEntries(
    world: World, arguments: Context, tables: Tables, main: seq<Step>, finally: seq<Step>)
    returns (at: seq<nat>)
    requires RunMain(world, arguments, tables, main).outcome.Finished?
    ensures var middle := RunMain(world, arguments, tables, main);
      var log := RunFinally(world, arguments, tables, main, finally).state.log;
      middle.state.log <= log && OwnEntries(middle.state.log, at, 0, main, 0, "") &&
      IsLatest(log, at, Nil, middle.outcome.value)
  {
    var middle := RunMain(world, arguments, tables, main);
    at := FinishedStepsAreLogged(world, main, 0, Nil, "", Started(arguments, tables));
    StepsAreTidy(world, finally, 0, Nil, "finally.", middle.state);
    LatestInLonger(middle.state.log, RunFinally(world, arguments, tables, main, finally).state.log, at, Nil,
      middle.outcome.value);
  }

  lemma {:induction false} LatestInLonger(
    log: seq<StepResult>, longer: seq<StepResult>, at: seq<nat>, last: Value, value: Value)
    requires log <= longer && IsLatest(log, at, last, value)
    ensures IsLatest(longer, at, last, value)
  {
    assert forall i :: 0 <= i < |at| ==> longer[at[i]] == log[at[i]];
    if !(forall i :: 0 <= i < |at| ==> log[at[i]].output == Nil) {
      var i :| 0 <= i < |at| && value == log[at[i]].output && value != Nil && NoneBehind(log, at, i);
      assert value == longer[at[i]].output && NoneBehind(longer, at, i);
    }
  }

  lemma {:induction false} WorkflowIsTidy(
    world: World, arguments: Context, tables: Tables, main: seq<Step>, finally: seq<Step>)
    ensures Tidy(Started(arguments, tables), RunMain(world, arguments, tables, main).state, "")
    ensures Tidy(Started(arguments, tables), RunFinally(world, arguments, tables, main, finally).state, "")
    ensures !AnyLoopUnder(main, "steps") && !AnyLoopUnder(finally, "steps") ==>
      RunMain(world, arguments, tables, main).state.lent == {} &&
      RunFinally(world, arguments, tables, main, finally).state.lent == {}
  {
    var start, middle := Started(arguments, tables), RunMain(world, arguments, tables, main).state;
    StepsAreTidy(world, main, 0, Nil, "", start);
    StepsAreTidy(world, finally, 0, Nil, "finally.", middle);
    TidyTwice(start, middle, RunFinally(world, arguments, tables, main, finally).state, "", "finally.");
  }

  /** The arguments are as they were given, down to what is in their tables but for lent ones. */
  ghost predicate ArgumentsKept(arguments: Context, tables: Tables, after: State) {
    Kept(arguments, after.context) && |tables| < |after.tables| &&
    forall ref: nat :: ref < |tables| && ref !in after.lent ==> after.tables[ref] == tables[ref]
  }

  /** Main and closing steps, failing or not, leave every argument but the shared keys as it was given,
      but for tables lent by a loop under the alias `steps`; without such a loop, none is. */
  lemma {:induction false} WorkflowKeepsArguments(
    world: World, arguments: Context, tables: Tables, main: seq<Step>, finally: seq<Step>)
    ensures ArgumentsKept(arguments, tables, RunMain(world, arguments, tables, main).state)
    ensures ArgumentsKept(arguments, tables, RunFinally(world, arguments, tables, main, finally).state)
    ensures !AnyLoopUnder(main, "steps") && !AnyLoopUnder(finally, "steps") ==>
      RunMain(world, arguments, tables, main).state.lent == {} &&
      RunFinally(world, arguments, tables, main, finally).state.lent == {}
  {
    WorkflowIsTidy(world, arguments, tables, main, finally);
    StartKeepsArguments(arguments, tables, RunMain(world, arguments, tables, main).state);
    StartKeepsArguments(arguments, tables, RunFinally(world, arguments, tables, main, finally).state);
  }

  lemma {:induction false} StartKeepsArguments(arguments: Context, tables: Tables, after: State)
    requires Tidy(Started(arguments, tables), after, "")
    ensures ArgumentsKept(arguments, tables, after)
  {
    var start := Started(arguments, tables);
    forall key: string | !Shared(key) ensures SameAt(arguments, after.context, key) {
      assert SameAt(start.context, after.context, key);
    }
    forall ref: nat | ref < |tables| && ref !in after.lent ensures after.tables[ref] == tables[ref] {
      assert start.tables[ref] == tables[ref];
    }
  }

  /** A workflow of one loop without a body changes a table of its arguments if and only if the loop's
      alias is `steps`, its last item is that table, and the table does not say so already. */
  lemma {:induction false} LoopChangesArgumentTable(
    world: World, arguments: Context, tables: Tables, step: Step, items: seq<Value>, ref: nat)
    requires step.kind == ForEach && step.condition == "" && step.steps == []
    requires ref < |tables| && items != []
    requires var start := Started(arguments, tables);
      world.find(step.source, start.context, start.tables) == Items(items)
    ensures var key, output := SaveKey(step, FullName(step, 0, "")), List(seq(|items|, _ => Nil));
      ref < |RunMain(world, arguments, tables, [step]).state.tables| &&
      (RunMain(world, arguments, tables, [step]).state.tables[ref] != tables[ref] <==>
        (Alias(step) == "steps" && items[|items| - 1] == Table(ref) &&
         !(key in tables[ref] && tables[ref][key] == output)))
  {
    var start, name := Started(arguments, tables), FullName(step, 0, "");
    var before, output := Before(world, step, items, |items|, name, start), List(seq(|items|, _ => Nil));
    EmptyBodies(world, step, items, |items|, name, start);
    EmptyLoopRecords(world, step, items, name, start);
    var one := RunStep(world, step, 0, "", start);
    assert one == RunForEach(world, step, name, start);
    assert RunSteps(world, [step], 1, output, "", Noted(one)) == Ran(Finished(output), Noted(one));
    assert RunMain(world, arguments, tables, [step]).state.tables == Record(before, step, name, output).tables;
    var key := SaveKey(step, name);
    assert key in tables[ref] && tables[ref][key] == output ==> tables[ref][key := output] == tables[ref];
  }

  lemma {:induction false} EmptyLoopRecords(world: World, step: Step, items: seq<Value>, name: string, st: State)
    requires step.steps == []
    ensures var output := List(seq(|items|, _ => Nil)); var ran := RunItems(world, step, items, 0, [], name, st);
      ran.outcome == Finished(output) &&
      ran.state.tables == Record(Before(world, step, items, |items|, name, st), step, name, output).tables
  {
    forall k | 0 <= k < |items| ensures BodyAt(world, step, items, k, name, st).outcome == Finished(Nil) {
      EmptyBody(world, step, items[k], k, name, Before(world, step, items, k, name, st));
    }
    assert EveryBodyFinishes(world, step, items, name, st);
    ItemsCollect(world, step, items, 0, [], name, st);
    var collected := RunItems(world, step, items, 0, [], name, st).outcome.value.items;
    assert collected == seq(|items|, _ => Nil) by {
      forall k | 0 <= k < |items| ensures collected[k] == Nil {
        assert collected[k] == Entry(BodyAt(world, step, items, k, name, st));
      }
    }
  }

  lemma {:induction false} EmptyBody(world: World, step: Step, item: Value, k: nat, name: string, st: State)
    requires step.steps == []
    ensures RunBody(world, step, item, k, name, st) == Ran(Finished(Nil), Put(st, step, item, k))
  {
    var inner := Put(st, step, item, k);
    assert RunSteps(world, step.steps, 0, Nil, BodyPrefix(name, k), inner) == Ran(Finished(Nil), inner);
  }

  lemma {:induction false} EmptyBodies(
    world: World, step: Step, items: seq<Value>, k: nat, name: string, st: State)
    requires k <= |items| && step.steps == []
    ensures var before := Before(world, step, items, k, name, st);
      before.tables == st.tables &&
      (Alias(step) != "steps" || k == 0 ==> SameAt(st.context, before.context, "steps")) &&
      (Alias(step) == "steps" && k > 0 ==> "steps" in before.context && before.context["steps"] == items[k - 1])
  {
    IndexKeyIsNotSteps(step);
    if k > 0 {
      EmptyBodies(world, step, items, k - 1, name, st);
      EmptyBody(world, step, items[k - 1], k - 1, name, Before(world, step, items, k - 1, name, st));
    }
  }

  /** An answered workflow has logged every main step and then every closing step, in order. */
  lemma {:induction false} AnsweredWorkflowIsLogged(
    world: World, arguments: Context, tables: Tables, main: seq<Step>, finally: seq<Step>)
    returns (at: seq<nat>, closing: seq<nat>)
    requires RunMain(world, arguments, tables, main).outcome.Finished?
    requires RunFinally(world, arguments, tables, main, finally).outcome.Finished?
    ensures var middle := RunMain(world, arguments, tables, main).state.log;
      var log := RunFinally(world, arguments, tables, main, finally).state.log;
      middle <= log && OwnEntries(middle, at, 0, main, 0, "") &&
      OwnEntries(log, closing, |middle|, finally, 0, "finally.")
  {
    var middle := RunMain(world, arguments, tables, main).state;
    at := MainEntries(world, arguments, tables, main, finally);
    closing := FinishedStepsAreLogged(world, finally, 0, Nil, "finally.", middle);
  }
}
