/** What becomes of each message injected into a run, over every interleaving. */
module InjectionFate {
  import opened Coordinator
  import opened CoordinatorProtocol

  /** The event takes everything pending off the runner's list. */
  predicate Drains(s: System, e: Event) {
    e.DrainEvent? || e.FinalDrainEvent? || (e.SpillEvent? && s.instance.hasRunner)
  }

  /** The event starts a processor, and with it a new runner. */
  predicate Replaces(s: System, e: Event) {
    e.EnqueueEvent? && Decide(s.instance, e.message) == QueueIt(true)
  }

  ghost predicate SameRunner(s: System, events: seq<Event>)
    requires EnabledRun(s, events)
    decreases |events|
  {
    events == [] || (!Replaces(s, events[0]) && SameRunner(Step(s, events[0]), events[1..]))
  }

  ghost predicate SomeDrain(s: System, events: seq<Event>)
    requires EnabledRun(s, events)
    decreases |events|
  {
    events != [] && (Drains(s, events[0]) || SomeDrain(Step(s, events[0]), events[1..]))
  }

  predicate Signals(s: System, e: Event, message: Queued)
    requires e.SignalEvent? ==> e.index < |s.injecting|
  {
    e.SignalEvent? && s.injecting[e.index] == message
  }

  /** The message is signalled, and a drain follows. */
  ghost predicate DrainFollowsSignal(s: System, events: seq<Event>, message: Queued)
    requires EnabledRun(s, events)
    decreases |events|
  {
    events != [] &&
    (var next := Step(s, events[0]);
     if Signals(s, events[0], message) then SomeDrain(next, events[1..])
     else DrainFollowsSignal(next, events[1..], message))
  }

  // ---------------------------------------------------------------------------------------
  // Messages are signalled once.
  // ---------------------------------------------------------------------------------------

  /** How often the ticket is with, or behind, a caller that has sent its signal or given up. */
  function Out(s: System, ticket: Ticket): nat {
    Count(Tickets(s.acknowledging), ticket) + Count(AnsweredTickets(s.answered), ticket)
  }

  ghost predicate DistinctTickets(messages: seq<Queued>) {
    forall i, j :: 0 <= i < j < |messages| ==> messages[i].ticket != messages[j].ticket
  }

  ghost predicate SignalledOnce(s: System) {
    DistinctTickets(s.signalled) && forall i :: 0 <= i < |s.signalled| ==> Out(s, s.signalled[i].ticket) >= 1
  }

  lemma {:induction false} CountMember(messages: seq<Queued>, i: nat)
    requires i < |messages|
    ensures Count(Tickets(messages), messages[i].ticket) >= 1
  {
    if i > 0 { CountMember(messages[1..], i - 1); }
  }

  lemma {:induction false} InjectingIsNotOut(s: System, index: nat)
    requires Inv(s) && index < |s.injecting|
    ensures Out(s, s.injecting[index].ticket) == 0
    ensures forall i :: 0 <= i < |s.injecting| && i != index ==> s.injecting[i] != s.injecting[index]
  {
    var ticket := s.injecting[index].ticket;
    CountMember(s.injecting, index);
    assert Places(s, ticket) <= 1;
    forall i | 0 <= i < |s.injecting| && i != index ensures s.injecting[i] != s.injecting[index] {
      CountWithout(s.injecting, index, ticket);
      var others := Without(s.injecting, index);
      var at := if i < index then i else i - 1;
      assert others[at] == s.injecting[i];
      CountMember(others, at);
    }
  }

  lemma {:induction false} OutGrows(s: System, e: Event, ticket: Ticket)
    requires Enabled(s, e)
    ensures Out(Step(s, e), ticket) >= Out(s, ticket)
  {
    match e {
      case RejectEvent(index) => CountAnswered(s.answered, Answer(s.rejecting[index].ticket, Canceled), ticket);
      case SignalEvent(index) => CountMore(s.acknowledging, s.injecting[index], ticket);
      case LateSignalEvent(index) => CountMore(s.acknowledging, s.late[index], ticket);
      case AcknowledgeEvent(index) =>
        CountWithout(s.acknowledging, index, ticket);
        CountAnswered(s.answered, Answer(s.acknowledging[index].ticket, Injected), ticket);
      case AbortEvent =>
        AnsweredOfConcat(s.answered, Cancellations(s.instance.queue));
        CountOfConcat(AnsweredTickets(s.answered), AnsweredTickets(Cancellations(s.instance.queue)), ticket);
      case SendEvent =>
        CountAnswered(s.answered, Answer(s.processor.message.ticket, Ran(s.processor.aborted)), ticket);
      case _ =>
    }
  }

  lemma {:induction false} StepKeepsSignalledOnce(s: System, e: Event)
    requires Inv(s) && SignalledOnce(s) && Enabled(s, e)
    ensures SignalledOnce(Step(s, e))
  {
    var t := Step(s, e);
    SignalledBy(s, e);
    forall i | 0 <= i < |t.signalled| ensures Out(t, t.signalled[i].ticket) >= 1 {
      if i < |s.signalled| {
        OutGrows(s, e, s.signalled[i].ticket);
      } else {
        CountMore(s.acknowledging, s.injecting[e.index], s.injecting[e.index].ticket);
      }
    }
    if e.SignalEvent? { InjectingIsNotOut(s, e.index); }
  }

  lemma {:induction false} SignalledBy(s: System, e: Event)
    requires Enabled(s, e)
    ensures Step(s, e).signalled ==
      if e.SignalEvent? then s.signalled + [s.injecting[e.index]] else if Replaces(s, e) then [] else s.signalled
  {
  }

  lemma {:induction false} RunKeepsSignalledOnce(s: System, events: seq<Event>)
    requires Inv(s) && SignalledOnce(s) && EnabledRun(s, events)
    ensures Inv(Run(s, events)) && SignalledOnce(Run(s, events))
    decreases |events|
  {
    if events != [] {
      StepKeepsInv(s, events[0]);
      StepKeepsSignalledOnce(s, events[0]);
      RunKeepsSignalledOnce(Step(s, events[0]), events[1..]);
    }
  }

  // ---------------------------------------------------------------------------------------
  // While a runner lives.
  // ---------------------------------------------------------------------------------------

  /** Nothing signalled or settled is taken back, and the last drain took what was signalled before it. */
  ghost predicate Follows(s: System, t: System, drained: bool) {
    s.signalled <= t.signalled && s.handled <= t.handled && s.drained <= t.drained <= |t.signalled| &&
    (if drained then |s.signalled| <= t.drained else t.drained == s.drained)
  }

  lemma {:induction false} StepFollows(s: System, e: Event)
    requires Inv(s) && Enabled(s, e) && !Replaces(s, e)
    ensures Follows(s, Step(s, e), Drains(s, e))
  {
  }

  lemma {:induction false} RunFollows(s: System, events: seq<Event>)
    requires Inv(s) && EnabledRun(s, events) && SameRunner(s, events)
    ensures Follows(s, Run(s, events), SomeDrain(s, events))
    decreases |events|
  {
    if events != [] {
      StepKeepsInv(s, events[0]);
      StepFollows(s, events[0]);
      RunFollows(Step(s, events[0]), events[1..]);
    }
  }

  /** What the runner holds or has settled is what it had drained. */
  lemma {:induction false} DrainedMessages(s: System)
    requires Inv(s)
    ensures Settled(s.handled) + Batch(s.processor) == s.signalled[..s.drained]
  {
    var drained := Settled(s.handled) + Batch(s.processor);
    assert s.signalled == drained + s.inbox;
    assert |s.inbox| == |s.signalled| - s.drained;
  }

  /** The message is settled or being settled. */
  ghost predicate Reached(s: System, message: Queued) {
    message in Settled(s.handled) || message in Batch(s.processor)
  }

  lemma {:induction false} SignalledIsReachedIffDrained(s: System, k: nat)
    requires Inv(s) && SignalledOnce(s) && k < |s.signalled|
    ensures Reached(s, s.signalled[k]) <==> k < s.drained
  {
    DrainedMessages(s);
    var drained := Settled(s.handled) + Batch(s.processor);
    assert Reached(s, s.signalled[k]) <==> s.signalled[k] in drained;
    assert k < s.drained ==> drained[k] == s.signalled[k];
    assert forall i :: 0 <= i < |drained| && i != k ==> drained[i].ticket != s.signalled[k].ticket;
  }

  lemma {:induction false} InjectingIsNotReached(s: System, message: Queued)
    requires Inv(s) && SignalledOnce(s) && message in s.injecting
    ensures message !in s.signalled && !Reached(s, message)
  {
    var index :| 0 <= index < |s.injecting| && s.injecting[index] == message;
    InjectingIsNotOut(s, index);
    DrainedMessages(s);
    assert message !in s.signalled;
    assert forall m :: m in Settled(s.handled) + Batch(s.processor) ==> m in s.signalled;
  }

  /** Over any run of one runner, a message that is being injected is settled or being settled at its end if
      and only if it has been signalled and a drain has followed; otherwise it waits where nobody settles. */
  lemma {:induction false} InjectedIsReachedIffDrainFollows(s: System, events: seq<Event>, message: Queued)
    requires Inv(s) && SignalledOnce(s) && message in s.injecting
    requires EnabledRun(s, events) && SameRunner(s, events)
    ensures Reached(Run(s, events), message) <==> DrainFollowsSignal(s, events, message)
    ensures !Reached(Run(s, events), message) ==> message in Run(s, events).injecting || message in Run(s, events).inbox
    decreases |events|
  {
    if events == [] {
      InjectingIsNotReached(s, message);
    } else {
      var e, t := events[0], Run(s, events);
      var next := Step(s, e);
      StepKeepsInv(s, e);
      StepKeepsSignalledOnce(s, e);
      if Signals(s, e, message) {
        var k := |s.signalled|;
        RunKeepsSignalledOnce(next, events[1..]);
        RunFollows(next, events[1..]);
        assert next.signalled[k] == message && t.signalled[k] == message;
        SignalledIsReachedIffDrained(t, k);
        assert k >= t.drained ==> t.inbox[k - t.drained] == message;
      } else {
        StaysInjecting(s, e, message);
        InjectedIsReachedIffDrainFollows(next, events[1..], message);
      }
    }
  }

  lemma {:induction false} StaysInjecting(s: System, e: Event, message: Queued)
    requires Enabled(s, e) && !Replaces(s, e) && message in s.injecting && !Signals(s, e, message)
    ensures message in Step(s, e).injecting
  {
    var i :| 0 <= i < |s.injecting| && s.injecting[i] == message;
    if e.SignalEvent? {
      assert Without(s.injecting, e.index)[if i < e.index then i else i - 1] == message;
    } else if e.EnqueueEvent? {
      assert Step(s, e).injecting[i] == message;
    }
  }

  // ---------------------------------------------------------------------------------------
  // When the runner is replaced.
  // ---------------------------------------------------------------------------------------

  /** The ticket has been issued, and the message will not be signalled again. */
  ghost predicate OutOfReach(s: System, message: Queued) {
    message.ticket in s.issued && message !in s.injecting && message !in s.signalled
  }

  lemma {:induction false} StaysOutOfReach(s: System, events: seq<Event>, message: Queued)
    requires Inv(s) && EnabledRun(s, events) && OutOfReach(s, message)
    ensures Inv(Run(s, events)) && OutOfReach(Run(s, events), message) && !Reached(Run(s, events), message)
    decreases |events|
  {
    if events == [] {
      DrainedMessages(s);
      assert forall m :: m in Settled(s.handled) + Batch(s.processor) ==> m in s.signalled;
    } else {
      StepKeepsInv(s, events[0]);
      StepStaysOutOfReach(s, events[0], message);
      StaysOutOfReach(Step(s, events[0]), events[1..], message);
    }
  }

  lemma {:induction false} StepStaysOutOfReach(s: System, e: Event, message: Queued)
    requires Enabled(s, e) && OutOfReach(s, message)
    ensures OutOfReach(Step(s, e), message)
  {
    SignalledBy(s, e);
    if e.SignalEvent? {
      assert forall m :: m in Without(s.injecting, e.index) ==> m in s.injecting;
    }
  }

  lemma {:induction false} ReplacingLeavesBehind(t: System, e: Event, message: Queued)
    requires Inv(t) && Enabled(t, e) && Replaces(t, e) && message.ticket in t.issued
    ensures OutOfReach(Step(t, e), message) && (Reached(t, message) <==> message in Settled(t.handled))
    ensures message in t.injecting ==> message in Step(t, e).late
    ensures message in t.inbox ==> message in Step(t, e).stranded
  {
  }

  lemma {:induction false} IssuedStays(s: System, events: seq<Event>, ticket: Ticket)
    requires EnabledRun(s, events) && ticket in s.issued
    ensures ticket in Run(s, events).issued
    decreases |events|
  {
    if events != [] { IssuedStays(Step(s, events[0]), events[1..], ticket); }
  }

  /** In every run: a message accepted for injection is settled before its runner is replaced (persisted,
      queued again, or lost by a failing save) if and only if it is signalled and a drain of that runner
      follows. Otherwise it is stranded, or with a caller that will signal too late, and no later runner
      ever has it. */
  lemma {:induction false} InjectedIsSettledIffDrainFollows(
    before: seq<Event>, message: Queued, created: bool, life: seq<Event>, e: Event, more: seq<Event>)
    requires EnabledRun(START, before) && Enabled(Run(START, before), EnqueueEvent(message, created))
    requires Decide(Run(START, before).instance, message) == InjectIt
    requires var s := Step(Run(START, before), EnqueueEvent(message, created));
      EnabledRun(s, life) && SameRunner(s, life) && Enabled(Run(s, life), e) && Replaces(Run(s, life), e) &&
      EnabledRun(Step(Run(s, life), e), more)
    ensures var s := Step(Run(START, before), EnqueueEvent(message, created)); var t := Run(s, life);
      var replaced := Step(t, e);
      (message in Settled(t.handled) <==> DrainFollowsSignal(s, life, message)) &&
      (message !in Settled(t.handled) ==> message in replaced.stranded || message in replaced.late) &&
      !Reached(Run(replaced, more), message)
  {
    var origin := Run(START, before);
    RunKeepsSignalledOnce(START, before);
    StepKeepsInv(origin, EnqueueEvent(message, created));
    StepKeepsSignalledOnce(origin, EnqueueEvent(message, created));
    var s := Step(origin, EnqueueEvent(message, created));
    var t := Run(s, life);
    RunKeepsSignalledOnce(s, life);
    InjectedIsReachedIffDrainFollows(s, life, message);
    IssuedStays(s, life, message.ticket);
    ReplacingLeavesBehind(t, e, message);
    StepKeepsInv(t, e);
    StaysOutOfReach(Step(t, e), more, message);
  }

  // ---------------------------------------------------------------------------------------
  // How a message is settled.
  // ---------------------------------------------------------------------------------------

  /** What the event makes of a message the runner holds. */
  ghost function FateAt(s: System, e: Event, message: Queued): set<Fate> {
    if message !in Batch(s.processor) then {}
    else if e.PersistEvent? && Batch(s.processor)[0] == message then {Persisted}
    else if e.PersistFailsEvent? then {Lost}
    else if e.RequeueEvent? then
      set k | 0 <= k < |Batch(s.processor)| && k < |e.tickets| && Batch(s.processor)[k] == message ::
        Requeued(e.tickets[k])
    else {}
  }

  /** Some event of the run makes `fate` of the message while the runner holds it. */
  ghost predicate FatedIn(s: System, events: seq<Event>, message: Queued, fate: Fate)
    requires EnabledRun(s, events)
    decreases |events|
  {
    events != [] &&
    (fate in FateAt(s, events[0], message) || FatedIn(Step(s, events[0]), events[1..], message, fate))
  }

  lemma {:induction false} SettledMember(handled: seq<Handled>, message: Queued)
    ensures message in Settled(handled) <==> exists i :: 0 <= i < |handled| && handled[i].message == message
  {
    if handled != [] {
      SettledMember(handled[1..], message);
      assert handled == [handled[0]] + handled[1..];
      if message in Settled(handled[1..]) {
        var i :| 0 <= i < |handled[1..]| && handled[1..][i].message == message;
        assert handled[i + 1].message == message;
      }
    }
  }

  lemma {:induction false} FatedMember(batch: seq<Queued>, fate: Fate, entry: Handled)
    ensures entry in Fated(batch, fate) <==> entry.fate == fate && entry.message in batch
  {
    if batch != [] {
      FatedMember(batch[1..], fate, entry);
      assert batch == [batch[0]] + batch[1..];
    }
  }

  lemma {:induction false} RequeuedMember(batch: seq<Queued>, tickets: seq<Ticket>, entry: Handled)
    requires |batch| == |tickets|
    ensures entry in Requeuings(batch, tickets) <==>
      exists k :: 0 <= k < |batch| && batch[k] == entry.message && entry.fate == Requeued(tickets[k])
  {
    if batch != [] {
      RequeuedMember(batch[1..], tickets[1..], entry);
      if k :| 0 <= k < |batch[1..]| && batch[1..][k] == entry.message && entry.fate == Requeued(tickets[1..][k]) {
        assert batch[k + 1] == entry.message && entry.fate == Requeued(tickets[k + 1]);
      }
    }
  }

  lemma {:induction false} StepSettles(s: System, e: Event, entry: Handled)
    requires Inv(s) && SignalledOnce(s) && Enabled(s, e) && !Replaces(s, e)
    ensures entry in Step(s, e).handled <==> entry in s.handled || entry.fate in FateAt(s, e, entry.message)
  {
    match e {
      case PersistEvent => assert Batch(s.processor) == s.processor.phase.batch;
      case PersistFailsEvent => FatedMember(s.processor.phase.batch, Lost, entry);
      case RequeueEvent(tickets) => RequeuedMember(s.processor.spill, tickets, entry);
      case _ => OthersSettleNothing(s, e, entry.message);
    }
  }

  lemma {:induction false} OthersSettleNothing(s: System, e: Event, message: Queued)
    requires Enabled(s, e) && !Replaces(s, e) && !e.PersistEvent? && !e.PersistFailsEvent? && !e.RequeueEvent?
    ensures Step(s, e).handled == s.handled && FateAt(s, e, message) == {}
  {
  }

  /** Over any run of one runner, a message is persisted, queued again or lost if and only if some event makes
      that of it while the runner holds it; so it is lost exactly when a save fails while it is in the batch. */
  lemma {:induction false} FateIsDecidedWhileHeld(s: System, events: seq<Event>, message: Queued, fate: Fate)
    requires Inv(s) && SignalledOnce(s) && EnabledRun(s, events) && SameRunner(s, events)
    ensures Handled(message, fate) in Run(s, events).handled <==>
            Handled(message, fate) in s.handled || FatedIn(s, events, message, fate)
    decreases |events|
  {
    if events != [] {
      StepSettles(s, events[0], Handled(message, fate));
      StepKeepsInv(s, events[0]);
      StepKeepsSignalledOnce(s, events[0]);
      FateIsDecidedWhileHeld(Step(s, events[0]), events[1..], message, fate);
    }
  }

  /** A message is settled once. */
  lemma {:induction false} SettledOnce(s: System, i: nat, j: nat)
    requires Inv(s) && SignalledOnce(s) && i < j < |s.handled|
    ensures s.handled[i].message != s.handled[j].message
  {
    SettledAt(s.handled, i);
    SettledAt(s.handled, j);
    DrainedMessages(s);
    var settled := Settled(s.handled);
    assert (settled + Batch(s.processor))[i] == settled[i] && (settled + Batch(s.processor))[j] == settled[j];
  }

  lemma {:induction false} SettledAt(handled: seq<Handled>, i: nat)
    requires i < |handled|
    ensures |Settled(handled)| == |handled| && Settled(handled)[i] == handled[i].message
  {
    if |handled| > 1 { SettledAt(handled[1..], if i == 0 then 0 else i - 1); }
  }

  /** In every run, a message accepted for injection is lost before its runner is replaced if and only if a
      save fails while it is in the batch; and what becomes of it is decided once. */
  lemma {:induction false} InjectedIsLostIffSaveFails(
    before: seq<Event>, message: Queued, created: bool, life: seq<Event>, fate: Fate)
    requires EnabledRun(START, before) && Enabled(Run(START, before), EnqueueEvent(message, created))
    requires Decide(Run(START, before).instance, message) == InjectIt
    requires var s := Step(Run(START, before), EnqueueEvent(message, created));
      EnabledRun(s, life) && SameRunner(s, life)
    ensures var s := Step(Run(START, before), EnqueueEvent(message, created)); var t := Run(s, life);
      (Handled(message, fate) in t.handled <==> FatedIn(s, life, message, fate)) &&
      forall i, j :: 0 <= i < j < |t.handled| ==> t.handled[i].message != t.handled[j].message
  {
    var origin := Run(START, before);
    RunKeepsSignalledOnce(START, before);
    StepKeepsInv(origin, EnqueueEvent(message, created));
    StepKeepsSignalledOnce(origin, EnqueueEvent(message, created));
    var s := Step(origin, EnqueueEvent(message, created));
    var t := Run(s, life);
    InjectingIsNotReached(s, message);
    SettledMember(s.handled, message);
    FateIsDecidedWhileHeld(s, life, message, fate);
    RunKeepsSignalledOnce(s, life);
    forall i, j | 0 <= i < j < |t.handled| ensures t.handled[i].message != t.handled[j].message {
      SettledOnce(t, i, j);
    }
  }
}
