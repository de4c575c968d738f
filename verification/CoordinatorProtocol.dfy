/** Every interleaving of enqueueing, aborting, processing and mid-run injection on one instance. */
module CoordinatorProtocol {
  import opened Coordinator

  datatype Phase =
    | RoundTop
    | Persisting(batch: seq<Queued>, last: bool)
    | Calling
    | FinalDrain
    | Ended(clean: bool)

  datatype Processor =
    | Idle
    | AtTop
    | InRun(message: Queued, phase: Phase)
    | Sending(message: Queued, aborted: bool)
    | Sent(message: Queued)
    | Spilled(message: Queued, spill: seq<Queued>)

  /** A message queued again goes on as another one, under the ticket of that one. */
  datatype Fate = Persisted | Requeued(successor: Ticket) | Lost

  /** A message that reached the runner and what became of it. */
  datatype Handled = Handled(message: Queued, fate: Fate)

  datatype Taken = Taken(message: Queued, started: bool)

  /** The instance, its processor, the callers in between two of their steps, and the logs.
      `inbox`, `signalled` and `handled` belong to the runner of the current or last processor;
      `late` are callers that still hold an earlier runner and `stranded` what those were sent. `past` is
      what earlier runners settled, `sent` what any runner was signalled, `refused` what was enqueued on
      the aborted instance. */
  datatype System = System(
    instance: Instance,
    processor: Processor,
    inbox: seq<Queued>,
    rejecting: seq<Queued>,
    injecting: seq<Queued>,
    late: seq<Queued>,
    acknowledging: seq<Queued>,
    answered: seq<Answer>,
    issued: set<Ticket>,
    accepted: seq<Queued>,
    taken: seq<Taken>,
    signalled: seq<Queued>,
    handled: seq<Handled>,
    drained: nat,
    stranded: seq<Queued>,
    past: seq<Handled>,
    sent: seq<Queued>,
    refused: seq<Queued>)

  const START := System(NEW_INSTANCE, Idle, [], [], [], [], [], [], {}, [], [], [], [], 0, [], [], [], [])

  datatype Event =
    | EnqueueEvent(message: Queued, created: bool)
    | RejectEvent(index: nat)
    | SignalEvent(index: nat)
    | LateSignalEvent(index: nat)
    | AcknowledgeEvent(index: nat)
    | AbortEvent
    | TakeEvent
    | DrainEvent
    | PersistEvent
    | PersistFailsEvent
    | RoundDoneEvent
    | NoToolCallsEvent
    | FinalDrainEvent
    | RunFailsEvent
    | TagEvent
    | SendEvent
    | SpillEvent
    | RequeueEvent(tickets: seq<Ticket>)

  function Tickets(messages: seq<Queued>): seq<Ticket> {
    if messages == [] then [] else [messages[0].ticket] + Tickets(messages[1..])
  }

  function AnsweredTickets(answers: seq<Answer>): seq<Ticket> {
    if answers == [] then [] else [answers[0].ticket] + AnsweredTickets(answers[1..])
  }

  function TakenMessages(taken: seq<Taken>): seq<Queued> {
    if taken == [] then [] else [taken[0].message] + TakenMessages(taken[1..])
  }

  function Settled(handled: seq<Handled>): seq<Queued> {
    if handled == [] then [] else [handled[0].message] + Settled(handled[1..])
  }

  function Carried(messages: seq<Queued>): (payloads: seq<Payload>)
    ensures |payloads| == |messages|
  {
    if messages == [] then [] else [messages[0].payload] + Carried(messages[1..])
  }

  function Rejections(queue: seq<Queued>): seq<Taken> {
    if queue == [] then [] else [Taken(queue[0], false)] + Rejections(queue[1..])
  }

  function Fated(batch: seq<Queued>, fate: Fate): seq<Handled> {
    if batch == [] then [] else [Handled(batch[0], fate)] + Fated(batch[1..], fate)
  }

  function Requeuings(batch: seq<Queued>, tickets: seq<Ticket>): seq<Handled>
    requires |batch| == |tickets|
  {
    if batch == [] then [] else [Handled(batch[0], Requeued(tickets[0]))] + Requeuings(batch[1..], tickets[1..])
  }

  function Without(messages: seq<Queued>, index: nat): seq<Queued>
    requires index < |messages|
  {
    messages[..index] + messages[index + 1..]
  }

  /** What the runner has drained but not settled yet. */
  function Batch(p: Processor): seq<Queued> {
    match p
    case InRun(_, Persisting(batch, _)) => batch
    case Spilled(_, spill) => spill
    case _ => []
  }

  ghost predicate Fresh(tickets: seq<Ticket>, issued: set<Ticket>) {
    (forall i :: 0 <= i < |tickets| ==> tickets[i] !in issued) &&
    forall i, j :: 0 <= i < j < |tickets| ==> tickets[i] != tickets[j]
  }

  ghost predicate Enabled(s: System, e: Event) {
    match e
    case EnqueueEvent(message, _) => message.ticket !in s.issued
    case RejectEvent(index) => index < |s.rejecting|
    case SignalEvent(index) => index < |s.injecting|
    case LateSignalEvent(index) => index < |s.late|
    case AcknowledgeEvent(index) => index < |s.acknowledging|
    case AbortEvent => true
    case TakeEvent => s.processor.AtTop?
    case DrainEvent => s.processor.InRun? && s.processor.phase.RoundTop?
    case PersistEvent => s.processor.InRun? && s.processor.phase.Persisting? && s.processor.phase.batch != []
    case PersistFailsEvent => s.processor.InRun? && s.processor.phase.Persisting? && s.processor.phase.batch != []
    case RoundDoneEvent => s.processor.InRun? && s.processor.phase.Calling?
    case NoToolCallsEvent => s.processor.InRun? && s.processor.phase.Calling?
    case FinalDrainEvent => s.processor.InRun? && s.processor.phase.FinalDrain?
    case RunFailsEvent => s.processor.InRun? && (s.processor.phase.RoundTop? || s.processor.phase.Calling?)
    case TagEvent => s.processor.InRun? && s.processor.phase.Ended?
    case SendEvent => s.processor.Sending?
    case SpillEvent => s.processor.Sent?
    case RequeueEvent(tickets) =>
      s.processor.Spilled? && |tickets| == |s.processor.spill| && Fresh(tickets, s.issued)
  }

  /** Starting a processor replaces the runner, so whatever the old one still holds is out of reach. */
  function NewRunner(s: System): System {
    s.(inbox := [], signalled := [], handled := [], drained := 0, injecting := [],
       late := s.late + s.injecting, stranded := s.stranded + s.inbox, past := s.past + s.handled)
  }

  function EnqueueStep(s: System, message: Queued, created: bool): System {
    var issued := s.(issued := s.issued + {message.ticket}, instance := Enqueue(s.instance, message, created));
    match Decide(s.instance, message)
    case RejectIt => issued.(rejecting := s.rejecting + [message], refused := s.refused + [message])
    case InjectIt => issued.(injecting := s.injecting + [message])
    case QueueIt(starts) =>
      var queued := issued.(accepted := s.accepted + [message]);
      if starts then NewRunner(queued).(processor := AtTop) else queued
  }

  function TakeStep(s: System): System {
    var queue := s.instance.queue;
    if queue == [] then s.(instance := Dequeue(s.instance), processor := Idle)
    else
      s.(instance := Dequeue(s.instance),
         processor := InRun(queue[0], if queue[0].compact || !s.instance.hasRunner then Ended(false) else RoundTop),
         taken := s.taken + [Taken(queue[0], true)])
  }

  function DrainStep(s: System, last: bool): System
    requires s.processor.InRun?
  {
    var phase := if s.inbox != [] then Persisting(s.inbox, last) else if last then Ended(true) else Calling;
    s.(processor := s.processor.(phase := phase), inbox := [], drained := |s.signalled|)
  }

  function PersistStep(s: System): System
    requires Enabled(s, PersistEvent)
  {
    var batch, last := s.processor.phase.batch, s.processor.phase.last;
    s.(handled := s.handled + [Handled(batch[0], Persisted)],
       processor := s.processor.(phase :=
         if |batch| > 1 then Persisting(batch[1..], last) else if last then RoundTop else Calling))
  }

  function Step(s: System, e: Event): System
    requires Enabled(s, e)
  {
    match e
    case EnqueueEvent(message, created) => EnqueueStep(s, message, created)
    case RejectEvent(index) =>
      s.(rejecting := Without(s.rejecting, index),
         answered := s.answered + [Answer(s.rejecting[index].ticket, Canceled)])
    case SignalEvent(index) =>
      s.(injecting := Without(s.injecting, index), acknowledging := s.acknowledging + [s.injecting[index]],
         inbox := s.inbox + [s.injecting[index]], signalled := s.signalled + [s.injecting[index]],
         sent := s.sent + [s.injecting[index]])
    case LateSignalEvent(index) =>
      s.(late := Without(s.late, index), acknowledging := s.acknowledging + [s.late[index]],
         stranded := s.stranded + [s.late[index]], sent := s.sent + [s.late[index]])
    case AcknowledgeEvent(index) =>
      s.(acknowledging := Without(s.acknowledging, index),
         answered := s.answered + [Answer(s.acknowledging[index].ticket, Injected)])
    case AbortEvent =>
      s.(instance := Abort(s.instance), answered := s.answered + Cancellations(s.instance.queue),
         taken := s.taken + Rejections(s.instance.queue))
    case TakeEvent => TakeStep(s)
    case DrainEvent => DrainStep(s, false)
    case PersistEvent => PersistStep(s)
    case PersistFailsEvent =>
      s.(handled := s.handled + Fated(s.processor.phase.batch, Lost),
         processor := s.processor.(phase := Ended(false)))
    case RoundDoneEvent => s.(processor := s.processor.(phase := RoundTop))
    case NoToolCallsEvent => s.(processor := s.processor.(phase := FinalDrain))
    case FinalDrainEvent => DrainStep(s, true)
    case RunFailsEvent => s.(processor := s.processor.(phase := Ended(false)))
    case TagEvent => s.(processor := Sending(s.processor.message, s.instance.aborted))
    case SendEvent =>
      s.(processor := Sent(s.processor.message),
         answered := s.answered + [Answer(s.processor.message.ticket, Ran(s.processor.aborted))])
    case SpillEvent =>
      if !s.instance.hasRunner || s.inbox == [] then
        s.(processor := AtTop, drained := if s.instance.hasRunner then |s.signalled| else s.drained)
      else s.(processor := Spilled(s.processor.message, s.inbox), inbox := [], drained := |s.signalled|)
    case RequeueEvent(tickets) =>
      s.(processor := AtTop, instance := Requeue(s.instance, Carried(s.processor.spill), tickets),
         handled := s.handled + Requeuings(s.processor.spill, tickets),
         issued := s.issued + (set ticket | ticket in tickets),
         accepted := s.accepted + Respawned(Carried(s.processor.spill), tickets))
  }

  // ---------------------------------------------------------------------------------------
  // The invariants.
  // ---------------------------------------------------------------------------------------

  /** The message the processor took and has not answered yet. */
  function InFlight(p: Processor): seq<Ticket> {
    match p
    case InRun(message, _) => [message.ticket]
    case Sending(message, _) => [message.ticket]
    case _ => []
  }

  function Count(tickets: seq<Ticket>, ticket: Ticket): nat {
    if tickets == [] then 0 else (if tickets[0] == ticket then 1 else 0) + Count(tickets[1..], ticket)
  }

  /** In how many places a ticket is: queued, in flight, with a caller that will answer it, answered. */
  function Places(s: System, ticket: Ticket): nat {
    Count(Tickets(s.instance.queue), ticket) + Count(InFlight(s.processor), ticket) +
    Count(Tickets(s.rejecting), ticket) + Count(Tickets(s.injecting), ticket) +
    Count(Tickets(s.late), ticket) + Count(Tickets(s.acknowledging), ticket) +
    Count(AnsweredTickets(s.answered), ticket)
  }

  ghost predicate EachTicketInOnePlace(s: System) {
    forall ticket :: Places(s, ticket) == if ticket in s.issued then 1 else 0
  }

  /** One processor at most, and one whenever something is queued; it never settles an empty batch. */
  ghost predicate ProcessorLives(s: System) {
    (s.instance.processing <==> !s.processor.Idle?) && (s.instance.queue != [] ==> s.instance.processing) &&
    (s.processor.InRun? && s.processor.phase.Persisting? ==> s.processor.phase.batch != [])
  }

  /** What was queued is what was taken, in that order, and then what is still queued. */
  ghost predicate FirstInFirstOut(s: System) {
    s.accepted == TakenMessages(s.taken) + s.instance.queue
  }

  /** Every message signalled to the runner is settled, in the batch being settled, or pending, in
      signal order; and the pending ones are those signalled since the last drain. */
  ghost predicate MidRunConserved(s: System) {
    s.signalled == Settled(s.handled) + Batch(s.processor) + s.inbox &&
    s.drained <= |s.signalled| && s.inbox == s.signalled[s.drained..]
  }

  ghost predicate Inv(s: System) {
    EachTicketInOnePlace(s) && ProcessorLives(s) && FirstInFirstOut(s) && MidRunConserved(s)
  }

  // ---------------------------------------------------------------------------------------
  // Lists of tickets.
  // ---------------------------------------------------------------------------------------

  lemma {:induction false} TicketsOfConcat(left: seq<Queued>, right: seq<Queued>)
    ensures Tickets(left + right) == Tickets(left) + Tickets(right)
  {
    if left == [] {
      assert left + right == right;
    } else {
      assert (left + right)[1..] == left[1..] + right;
      TicketsOfConcat(left[1..], right);
    }
  }

  lemma {:induction false} AnsweredOfConcat(left: seq<Answer>, right: seq<Answer>)
    ensures AnsweredTickets(left + right) == AnsweredTickets(left) + AnsweredTickets(right)
  {
    if left == [] {
      assert left + right == right;
    } else {
      assert (left + right)[1..] == left[1..] + right;
      AnsweredOfConcat(left[1..], right);
    }
  }

  lemma {:induction false} TakenOfConcat(left: seq<Taken>, right: seq<Taken>)
    ensures TakenMessages(left + right) == TakenMessages(left) + TakenMessages(right)
  {
    if left == [] {
      assert left + right == right;
    } else {
      assert (left + right)[1..] == left[1..] + right;
      TakenOfConcat(left[1..], right);
    }
  }

  lemma {:induction false} SettledOfConcat(left: seq<Handled>, right: seq<Handled>)
    ensures Settled(left + right) == Settled(left) + Settled(right)
  {
    if left == [] {
      assert left + right == right;
    } else {
      assert (left + right)[1..] == left[1..] + right;
      SettledOfConcat(left[1..], right);
    }
  }

  lemma {:induction false} FatedMessages(batch: seq<Queued>, fate: Fate)
    ensures Settled(Fated(batch, fate)) == batch
  {
    if batch != [] { FatedMessages(batch[1..], fate); }
  }

  lemma {:induction false} RequeuedMessages(batch: seq<Queued>, tickets: seq<Ticket>)
    requires |batch| == |tickets|
    ensures Settled(Requeuings(batch, tickets)) == batch
  {
    if batch != [] { RequeuedMessages(batch[1..], tickets[1..]); }
  }

  lemma {:induction false} CancellationTickets(queue: seq<Queued>)
    ensures AnsweredTickets(Cancellations(queue)) == Tickets(queue)
    ensures TakenMessages(Rejections(queue)) == queue
  {
    if queue != [] { CancellationTickets(queue[1..]); }
  }

  lemma {:induction false} RespawnedTickets(batch: seq<Payload>, tickets: seq<Ticket>)
    requires |batch| == |tickets|
    ensures Tickets(Respawned(batch, tickets)) == tickets
  {
    if batch != [] { RespawnedTickets(batch[1..], tickets[1..]); }
  }

  lemma {:induction false} CountOfConcat(left: seq<Ticket>, right: seq<Ticket>, ticket: Ticket)
    ensures Count(left + right, ticket) == Count(left, ticket) + Count(right, ticket)
  {
    if left == [] {
      assert left + right == right;
    } else {
      assert (left + right)[1..] == left[1..] + right;
      CountOfConcat(left[1..], right, ticket);
    }
  }

  lemma {:induction false} CountWithout(messages: seq<Queued>, index: nat, ticket: Ticket)
    requires index < |messages|
    ensures Count(Tickets(messages), ticket)
         == Count(Tickets(Without(messages, index)), ticket) + (if messages[index].ticket == ticket then 1 else 0)
  {
    if index > 0 {
      CountWithout(messages[1..], index - 1, ticket);
      assert Without(messages, index) == [messages[0]] + Without(messages[1..], index - 1);
    } else {
      assert Without(messages, index) == messages[1..];
    }
  }

  lemma {:induction false} CountMore(messages: seq<Queued>, message: Queued, ticket: Ticket)
    ensures Count(Tickets(messages + [message]), ticket)
         == Count(Tickets(messages), ticket) + (if message.ticket == ticket then 1 else 0)
  {
    TicketsOfConcat(messages, [message]);
    assert Tickets([message]) == [message.ticket];
    CountOfConcat(Tickets(messages), [message.ticket], ticket);
  }

  lemma {:induction false} CountAnswered(answered: seq<Answer>, answer: Answer, ticket: Ticket)
    ensures Count(AnsweredTickets(answered + [answer]), ticket)
         == Count(AnsweredTickets(answered), ticket) + (if answer.ticket == ticket then 1 else 0)
  {
    AnsweredOfConcat(answered, [answer]);
    assert AnsweredTickets([answer]) == [answer.ticket];
    CountOfConcat(AnsweredTickets(answered), [answer.ticket], ticket);
  }

  lemma {:induction false} CountFresh(tickets: seq<Ticket>, issued: set<Ticket>, ticket: Ticket)
    requires Fresh(tickets, issued)
    ensures Count(tickets, ticket) == if ticket in tickets then 1 else 0
  {
    if tickets != [] {
      assert forall i :: 0 <= i < |tickets| - 1 ==> tickets[1..][i] == tickets[i + 1];
      assert tickets[0] !in tickets[1..];
      CountFresh(tickets[1..], issued, ticket);
      assert tickets == [tickets[0]] + tickets[1..];
    }
  }

  // ---------------------------------------------------------------------------------------
  // Every step keeps every invariant.
  // ---------------------------------------------------------------------------------------

  lemma {:induction false} EnqueueKeepsOrder(s: System, message: Queued, created: bool)
    requires Inv(s)
    ensures FirstInFirstOut(EnqueueStep(s, message, created))
  {
    assert s.accepted + [message] == TakenMessages(s.taken) + (s.instance.queue + [message]);
  }

  lemma {:induction false} AbortKeepsOrder(s: System)
    requires Inv(s)
    ensures FirstInFirstOut(Step(s, AbortEvent))
  {
    CancellationTickets(s.instance.queue);
    TakenOfConcat(s.taken, Rejections(s.instance.queue));
  }

  lemma {:induction false} TakeKeepsOrder(s: System)
    requires Inv(s) && Enabled(s, TakeEvent)
    ensures FirstInFirstOut(Step(s, TakeEvent))
  {
    var queue := s.instance.queue;
    if queue != [] {
      TakenOfConcat(s.taken, [Taken(queue[0], true)]);
      assert TakenMessages([Taken(queue[0], true)]) == [queue[0]];
    }
  }

  lemma {:induction false} RequeueKeepsOrder(s: System, tickets: seq<Ticket>)
    requires Inv(s) && Enabled(s, RequeueEvent(tickets))
    ensures FirstInFirstOut(Step(s, RequeueEvent(tickets)))
  {
    Regrouped(TakenMessages(s.taken), s.instance.queue, Respawned(Carried(s.processor.spill), tickets));
  }

  lemma {:induction false} Regrouped(taken: seq<Queued>, queue: seq<Queued>, more: seq<Queued>)
    ensures taken + queue + more == taken + (queue + more)
  {
  }

  lemma {:induction false} StepKeepsOrder(s: System, e: Event)
    requires Inv(s) && Enabled(s, e)
    ensures FirstInFirstOut(Step(s, e))
  {
    match e {
      case EnqueueEvent(message, created) => EnqueueKeepsOrder(s, message, created);
      case AbortEvent => AbortKeepsOrder(s);
      case TakeEvent => TakeKeepsOrder(s);
      case RequeueEvent(tickets) => RequeueKeepsOrder(s, tickets);
      case _ =>
        var t := Step(s, e);
        assert t.accepted == s.accepted && t.taken == s.taken && t.instance.queue == s.instance.queue;
    }
  }

  lemma {:induction false} MovedFirst(settled: seq<Queued>, batch: seq<Queued>, inbox: seq<Queued>)
    requires batch != []
    ensures settled + batch + inbox == settled + [batch[0]] + batch[1..] + inbox
  {
    assert batch == [batch[0]] + batch[1..];
  }

  lemma {:induction false} PersistKeepsMidRun(s: System)
    requires Inv(s) && Enabled(s, PersistEvent)
    ensures MidRunConserved(Step(s, PersistEvent))
  {
    var batch := s.processor.phase.batch;
    SettledOfConcat(s.handled, [Handled(batch[0], Persisted)]);
    assert Settled([Handled(batch[0], Persisted)]) == [batch[0]];
    assert Batch(s.processor) == batch && Batch(PersistStep(s).processor) == batch[1..];
    MovedFirst(Settled(s.handled), batch, s.inbox);
  }

  lemma {:induction false} FailureKeepsMidRun(s: System)
    requires Inv(s) && Enabled(s, PersistFailsEvent)
    ensures MidRunConserved(Step(s, PersistFailsEvent))
  {
    FatedMessages(s.processor.phase.batch, Lost);
    SettledOfConcat(s.handled, Fated(s.processor.phase.batch, Lost));
  }

  lemma {:induction false} RequeueKeepsMidRun(s: System, tickets: seq<Ticket>)
    requires Inv(s) && Enabled(s, RequeueEvent(tickets))
    ensures MidRunConserved(Step(s, RequeueEvent(tickets)))
  {
    RequeuedMessages(s.processor.spill, tickets);
    SettledOfConcat(s.handled, Requeuings(s.processor.spill, tickets));
    var t := Step(s, RequeueEvent(tickets));
    assert Batch(s.processor) == s.processor.spill && Batch(t.processor) == [];
    assert Settled(t.handled) == Settled(s.handled) + s.processor.spill;
    assert Settled(t.handled) + [] + t.inbox == Settled(s.handled) + s.processor.spill + s.inbox;
  }

  lemma {:induction false} DrainKeepsMidRun(s: System, last: bool)
    requires MidRunConserved(s) && s.processor.InRun? && Batch(s.processor) == []
    ensures MidRunConserved(DrainStep(s, last))
  {
    assert Batch(DrainStep(s, last).processor) == s.inbox;
  }

  lemma {:induction false} SpillKeepsMidRun(s: System)
    requires MidRunConserved(s) && Enabled(s, SpillEvent)
    ensures MidRunConserved(Step(s, SpillEvent))
  {
    var t := Step(s, SpillEvent);
    assert t.handled == s.handled && t.signalled == s.signalled && Batch(s.processor) == [];
    if t.processor.AtTop? {
      assert t.inbox == s.inbox && Batch(t.processor) == [];
    } else {
      assert t.inbox == [] && Batch(t.processor) == s.inbox;
      assert Settled(s.handled) + [] + s.inbox == Settled(s.handled) + s.inbox + [];
    }
  }

  lemma {:induction false} EnqueueKeepsMidRun(s: System, message: Queued, created: bool)
    requires MidRunConserved(s)
    ensures MidRunConserved(EnqueueStep(s, message, created))
  {
  }

  lemma {:induction false} SignalKeepsMidRun(s: System, index: nat)
    requires MidRunConserved(s) && Enabled(s, SignalEvent(index))
    ensures MidRunConserved(Step(s, SignalEvent(index)))
  {
    var t := Step(s, SignalEvent(index));
    assert t.signalled[s.drained..] == s.signalled[s.drained..] + [s.injecting[index]];
  }

  lemma {:induction false} StepKeepsMidRun(s: System, e: Event)
    requires Inv(s) && Enabled(s, e)
    ensures MidRunConserved(Step(s, e))
  {
    match e {
      case PersistEvent => PersistKeepsMidRun(s);
      case PersistFailsEvent => FailureKeepsMidRun(s);
      case RequeueEvent(tickets) => RequeueKeepsMidRun(s, tickets);
      case DrainEvent => DrainKeepsMidRun(s, false);
      case FinalDrainEvent => DrainKeepsMidRun(s, true);
      case SpillEvent => SpillKeepsMidRun(s);
      case SignalEvent(index) => SignalKeepsMidRun(s, index);
      case EnqueueEvent(message, created) => EnqueueKeepsMidRun(s, message, created);
      case _ =>
        var t := Step(s, e);
        assert t.signalled == s.signalled && t.handled == s.handled && t.inbox == s.inbox && t.drained == s.drained;
        assert Batch(t.processor) == Batch(s.processor);
    }
  }

  lemma {:induction false} EnqueueCounts(s: System, message: Queued, created: bool, ticket: Ticket)
    ensures Places(EnqueueStep(s, message, created), ticket)
         == Places(s, ticket) + (if message.ticket == ticket then 1 else 0) -
            (if Decide(s.instance, message) == QueueIt(true) then Count(InFlight(s.processor), ticket) else 0)
  {
    CountMore(s.rejecting, message, ticket);
    CountMore(s.injecting, message, ticket);
    CountMore(s.instance.queue, message, ticket);
    TicketsOfConcat(s.late, s.injecting);
    CountOfConcat(Tickets(s.late), Tickets(s.injecting), ticket);
  }

  lemma {:induction false} CallerCounts(s: System, e: Event, ticket: Ticket)
    requires Enabled(s, e)
    requires e.RejectEvent? || e.SignalEvent? || e.LateSignalEvent? || e.AcknowledgeEvent?
    ensures Places(Step(s, e), ticket) == Places(s, ticket)
  {
    match e {
      case RejectEvent(index) =>
        CountWithout(s.rejecting, index, ticket);
        CountAnswered(s.answered, Answer(s.rejecting[index].ticket, Canceled), ticket);
      case SignalEvent(index) =>
        CountWithout(s.injecting, index, ticket);
        CountMore(s.acknowledging, s.injecting[index], ticket);
      case LateSignalEvent(index) =>
        CountWithout(s.late, index, ticket);
        CountMore(s.acknowledging, s.late[index], ticket);
      case AcknowledgeEvent(index) =>
        CountWithout(s.acknowledging, index, ticket);
        CountAnswered(s.answered, Answer(s.acknowledging[index].ticket, Injected), ticket);
    }
  }

  lemma {:induction false} ProcessorCounts(s: System, e: Event, ticket: Ticket)
    requires Enabled(s, e) && (e.AbortEvent? || e.TakeEvent? || e.SendEvent?)
    ensures Places(Step(s, e), ticket) == Places(s, ticket)
  {
    var queue := s.instance.queue;
    match e {
      case AbortEvent =>
        CancellationTickets(queue);
        AnsweredOfConcat(s.answered, Cancellations(queue));
        CountOfConcat(AnsweredTickets(s.answered), Tickets(queue), ticket);
      case TakeEvent =>
        if queue != [] {
          var first := queue[0].ticket;
          assert Tickets(queue) == [first] + Tickets(queue[1..]);
          CountOfConcat([first], Tickets(queue[1..]), ticket);
          assert InFlight(Step(s, e).processor) == [first];
        }
      case SendEvent =>
        assert InFlight(s.processor) == [s.processor.message.ticket];
        assert Count([s.processor.message.ticket], ticket) == if s.processor.message.ticket == ticket then 1 else 0;
        CountAnswered(s.answered, Answer(s.processor.message.ticket, Ran(s.processor.aborted)), ticket);
    }
  }

  lemma {:induction false} RequeueCounts(s: System, tickets: seq<Ticket>, ticket: Ticket)
    requires Enabled(s, RequeueEvent(tickets))
    ensures Places(Step(s, RequeueEvent(tickets)), ticket) == Places(s, ticket) + (if ticket in tickets then 1 else 0)
  {
    RespawnedTickets(Carried(s.processor.spill), tickets);
    TicketsOfConcat(s.instance.queue, Respawned(Carried(s.processor.spill), tickets));
    CountOfConcat(Tickets(s.instance.queue), tickets, ticket);
    CountFresh(tickets, s.issued, ticket);
  }

  lemma {:induction false} StepKeepsTickets(s: System, e: Event)
    requires Inv(s) && Enabled(s, e)
    ensures EachTicketInOnePlace(Step(s, e))
  {
    forall ticket ensures Places(Step(s, e), ticket) == if ticket in Step(s, e).issued then 1 else 0 {
      StepCounts(s, e, ticket);
    }
  }

  lemma {:induction false} StepCounts(s: System, e: Event, ticket: Ticket)
    requires Inv(s) && Enabled(s, e)
    ensures Places(Step(s, e), ticket) == if ticket in Step(s, e).issued then 1 else 0
  {
    match e {
      case EnqueueEvent(message, created) => EnqueueCounts(s, message, created, ticket);
      case RejectEvent(_) => CallerCounts(s, e, ticket);
      case SignalEvent(_) => CallerCounts(s, e, ticket);
      case LateSignalEvent(_) => CallerCounts(s, e, ticket);
      case AcknowledgeEvent(_) => CallerCounts(s, e, ticket);
      case AbortEvent => ProcessorCounts(s, e, ticket);
      case TakeEvent => ProcessorCounts(s, e, ticket);
      case SendEvent => ProcessorCounts(s, e, ticket);
      case RequeueEvent(tickets) => RequeueCounts(s, tickets, ticket);
      case _ => QuietCounts(s, e, ticket);
    }
  }

  lemma {:induction false} QuietCounts(s: System, e: Event, ticket: Ticket)
    requires Enabled(s, e)
    requires e.DrainEvent? || e.PersistEvent? || e.PersistFailsEvent? || e.RoundDoneEvent? || e.NoToolCallsEvent? ||
      e.FinalDrainEvent? || e.RunFailsEvent? || e.TagEvent? || e.SpillEvent?
    ensures Places(Step(s, e), ticket) == Places(s, ticket) && Step(s, e).issued == s.issued
  {
    var t := Step(s, e);
    assert InFlight(t.processor) == InFlight(s.processor);
    assert t.instance == s.instance && t.answered == s.answered && t.rejecting == s.rejecting;
    assert t.injecting == s.injecting && t.late == s.late && t.acknowledging == s.acknowledging;
  }

  lemma {:induction false} StepKeepsProcessor(s: System, e: Event)
    requires ProcessorLives(s) && Enabled(s, e)
    ensures ProcessorLives(Step(s, e))
  {
    match e {
      case EnqueueEvent(message, created) => assert ProcessorLives(EnqueueStep(s, message, created));
      case TakeEvent => assert ProcessorLives(TakeStep(s));
      case DrainEvent => assert ProcessorLives(DrainStep(s, false));
      case FinalDrainEvent => assert ProcessorLives(DrainStep(s, true));
      case PersistEvent => assert ProcessorLives(PersistStep(s));
      case _ =>
    }
  }

  lemma {:induction false} StepKeepsInv(s: System, e: Event)
    requires Inv(s) && Enabled(s, e)
    ensures Inv(Step(s, e))
  {
    StepKeepsTickets(s, e);
    StepKeepsProcessor(s, e);
    StepKeepsOrder(s, e);
    StepKeepsMidRun(s, e);
  }

  // ---------------------------------------------------------------------------------------
  // Whole runs.
  // ---------------------------------------------------------------------------------------

  ghost predicate EnabledRun(s: System, events: seq<Event>)
    decreases |events|
  {
    events == [] || (Enabled(s, events[0]) && EnabledRun(Step(s, events[0]), events[1..]))
  }

  ghost function Run(s: System, events: seq<Event>): System
    requires EnabledRun(s, events)
    decreases |events|
  {
    if events == [] then s else Run(Step(s, events[0]), events[1..])
  }

  lemma {:induction false} RunKeepsInv(s: System, events: seq<Event>)
    requires Inv(s) && EnabledRun(s, events)
    ensures Inv(Run(s, events))
    decreases |events|
  {
    if events != [] {
      StepKeepsInv(s, events[0]);
      RunKeepsInv(Step(s, events[0]), events[1..]);
    }
  }

  /** Over every interleaving the invariants hold, and no ticket is ever answered twice. */
  lemma {:induction false} EveryRunIsSafe(events: seq<Event>)
    requires EnabledRun(START, events)
    ensures Inv(Run(START, events))
    ensures forall ticket :: Count(AnsweredTickets(Run(START, events).answered), ticket) <= 1
  {
    RunKeepsInv(START, events);
    var s := Run(START, events);
    forall ticket ensures Count(AnsweredTickets(s.answered), ticket) <= 1 {
      assert Places(s, ticket) <= 1;
    }
  }

  /** Enqueueing starts a processor exactly when none is alive and the instance is not aborted. */
  lemma {:induction false} ProcessorStartsOnlyWhenNoneLives(s: System, message: Queued)
    requires Inv(s)
    ensures Decide(s.instance, message) == QueueIt(true) <==> s.processor.Idle? && !s.instance.aborted
  {
  }

  lemma {:induction false} AboveAll(issued: set<Ticket>) returns (above: Ticket)
    ensures forall ticket :: ticket in issued ==> ticket < above
    decreases |issued|
  {
    above := 0;
    if issued != {} {
      var one :| one in issued;
      var others := AboveAll(issued - {one});
      above := if one < others then others else one + 1;
      assert forall ticket :: ticket in issued ==> ticket == one || ticket in issued - {one};
    }
  }

  lemma {:induction false} FreshTickets(count: nat, issued: set<Ticket>) returns (tickets: seq<Ticket>)
    ensures |tickets| == count && Fresh(tickets, issued)
  {
    var above := AboveAll(issued);
    tickets := seq(count, k requires 0 <= k < count => above + k);
  }

  /** Some event of its own is always open to a live processor: it never blocks on a channel. */
  lemma {:induction false} ProcessorNeverStuck(s: System) returns (e: Event)
    requires Inv(s) && !s.processor.Idle?
    ensures Enabled(s, e)
    ensures e.TakeEvent? || e.DrainEvent? || e.PersistEvent? || e.NoToolCallsEvent? || e.FinalDrainEvent? ||
            e.TagEvent? || e.SendEvent? || e.SpillEvent? || e.RequeueEvent?
  {
    match s.processor {
      case AtTop => e := TakeEvent;
      case InRun(_, phase) =>
        e := match phase
          case RoundTop => DrainEvent
          case Persisting(batch, _) => if batch == [] then TagEvent else PersistEvent
          case Calling => NoToolCallsEvent
          case FinalDrain => FinalDrainEvent
          case Ended(_) => TagEvent;
      case Sending(_, _) => e := SendEvent;
      case Sent(_) => e := SpillEvent;
      case Spilled(_, spill) =>
        var tickets := FreshTickets(|spill|, s.issued);
        e := RequeueEvent(tickets);
    }
  }

  // ---------------------------------------------------------------------------------------
  // The mid-run promises, and where they stop.
  // ---------------------------------------------------------------------------------------

  ghost predicate EndedClean(s: System) {
    s.processor.InRun? && s.processor.phase == Ended(true)
  }

  /** A run that ends after a round without tool calls has just seen the pending list empty, and
      everything signalled to its runner so far is settled. */
  lemma {:induction false} CleanEndSettlesEverything(s: System, e: Event)
    requires Inv(s) && Enabled(s, e) && !EndedClean(s) && EndedClean(Step(s, e))
    ensures e.FinalDrainEvent? && s.inbox == []
    ensures Settled(Step(s, e).handled) == Step(s, e).signalled
  {
    StepKeepsInv(s, e);
  }

  lemma {:induction false} RunSnoc(s: System, events: seq<Event>, e: Event)
    requires EnabledRun(s, events) && Enabled(Run(s, events), e)
    ensures EnabledRun(s, events + [e]) && Run(s, events + [e]) == Step(Run(s, events), e)
    decreases |events|
  {
    if events == [] {
      assert events + [e] == [e];
      assert [e][1..] == [];
    } else {
      assert (events + [e])[1..] == events[1..] + [e];
      RunSnoc(Step(s, events[0]), events[1..], e);
    }
  }

  const FIRST := Queued(0, 5, false)
  const CALLING := START.(instance := Instance([], true, true, false), processor := InRun(FIRST, Calling),
                          issued := {0}, accepted := [FIRST], taken := [Taken(FIRST, true)])

  lemma {:induction false} RunUpToCall() returns (events: seq<Event>)
    ensures EnabledRun(START, events) && Run(START, events) == CALLING
  {
    events := [];
    events := Extend(events, EnqueueEvent(FIRST, true));
    events := Extend(events, TakeEvent);
    events := Extend(events, DrainEvent);
  }

  /** A run up to the point where the processor has looked for messages for the last time. */
  lemma {:induction false} RunUpToLastLook() returns (events: seq<Event>)
    ensures EnabledRun(START, events)
    ensures Run(START, events) == CALLING.(processor := AtTop, answered := [Answer(0, Ran(false))])
  {
    events := RunUpToCall();
    events := Extend(events, NoToolCallsEvent);
    events := Extend(events, FinalDrainEvent);
    events := Extend(events, TagEvent);
    events := Extend(events, SendEvent);
    events := Extend(events, SpillEvent);
  }

  /** A message can be acknowledged as injected and still never be seen again: it is signalled after
      the processor's last drain and before the processor notices that the queue is empty. */
  lemma {:induction false} InjectedMessageCanBeStranded() returns (events: seq<Event>)
    ensures EnabledRun(START, events)
    ensures var s := Run(START, events);
      s.processor.Idle? && s.instance == NEW_INSTANCE && s.inbox == [Queued(1, 7, false)] &&
      Answer(1, Injected) in s.answered
  {
    events := RunUpToLastLook();
    events := Extend(events, EnqueueEvent(Queued(1, 7, false), true));
    events := Extend(events, SignalEvent(0));
    events := Extend(events, TakeEvent);
    events := Extend(events, AcknowledgeEvent(0));
    assert Run(START, events).answered[1] == Answer(1, Injected);
  }

  lemma {:induction false} Extend(events: seq<Event>, e: Event) returns (longer: seq<Event>)
    requires EnabledRun(START, events) && Enabled(Run(START, events), e)
    ensures EnabledRun(START, longer) && Run(START, longer) == Step(Run(START, events), e)
  {
    longer := events + [e];
    RunSnoc(START, events, e);
  }
}
