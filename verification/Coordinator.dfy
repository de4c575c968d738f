/** One conversation's runner instance: its locked sections, and the handle a caller waits on. */
module Coordinator {
  import opened Messages

  /** Identifies one queued message, and with it the channel its one result is sent on. */
  type Ticket = nat

  /** Identifies the user's message that a queued or injected message carries. */
  type Payload = nat

  datatype Queued = Queued(ticket: Ticket, payload: Payload, compact: bool)

  datatype Result = Canceled | Injected | Ran(aborted: bool)

  datatype Answer = Answer(ticket: Ticket, result: Result)

  datatype Instance = Instance(queue: seq<Queued>, processing: bool, hasRunner: bool, aborted: bool)

  datatype Decision = RejectIt | InjectIt | QueueIt(startsProcessor: bool)

  const NEW_INSTANCE := Instance([], false, false, false)

  function Decide(i: Instance, message: Queued): Decision {
    if i.aborted then RejectIt
    else if i.processing && i.hasRunner && !message.compact then InjectIt
    else QueueIt(!i.processing)
  }

  /** `created` says whether a runner could be created for the processor that is started. */
  function Enqueue(i: Instance, message: Queued, created: bool): Instance {
    match Decide(i, message)
    case QueueIt(starts) =>
      i.(queue := i.queue + [message], processing := true, hasRunner := if starts then created else i.hasRunner)
    case _ => i
  }

  function Abort(i: Instance): Instance {
    i.(queue := [], aborted := true)
  }

  function Cancellations(queue: seq<Queued>): seq<Answer> {
    if queue == [] then [] else [Answer(queue[0].ticket, Canceled)] + Cancellations(queue[1..])
  }

  function Dequeue(i: Instance): Instance {
    if i.queue == [] then i.(processing := false, hasRunner := false) else i.(queue := i.queue[1..])
  }

  function Respawned(batch: seq<Payload>, tickets: seq<Ticket>): seq<Queued>
    requires |batch| == |tickets|
  {
    if batch == [] then [] else [Queued(tickets[0], batch[0], false)] + Respawned(batch[1..], tickets[1..])
  }

  function Requeue(i: Instance, batch: seq<Payload>, tickets: seq<Ticket>): Instance
    requires |batch| == |tickets|
  {
    i.(queue := i.queue + Respawned(batch, tickets))
  }

  /** Each message of the batch is queued once more, behind the others and in order, under its new ticket. */
  lemma {:induction false} RequeueQueuesEachMessage(i: Instance, batch: seq<Payload>, tickets: seq<Ticket>)
    requires |batch| == |tickets|
    ensures var next := Requeue(i, batch, tickets);
      next == i.(queue := next.queue) && |next.queue| == |i.queue| + |batch| && i.queue <= next.queue &&
      forall k :: 0 <= k < |batch| ==> next.queue[|i.queue| + k] == Queued(tickets[k], batch[k], false)
  {
    RespawnedAt(batch, tickets);
  }

  lemma {:induction false} RespawnedAt(batch: seq<Payload>, tickets: seq<Ticket>)
    requires |batch| == |tickets|
    ensures |Respawned(batch, tickets)| == |batch|
    ensures forall k :: 0 <= k < |batch| ==> Respawned(batch, tickets)[k] == Queued(tickets[k], batch[k], false)
  {
    if batch != [] { RespawnedAt(batch[1..], tickets[1..]); }
  }

  /** Aborting answers each queued message in order and leaves nothing queued. */
  lemma {:induction false} AbortCancelsEachMessage(i: Instance)
    ensures Abort(i).aborted && Abort(i).queue == [] && Abort(i).processing == i.processing
    ensures |Cancellations(i.queue)| == |i.queue|
    ensures forall k :: 0 <= k < |i.queue| ==> Cancellations(i.queue)[k] == Answer(i.queue[k].ticket, Canceled)
  {
    CancellationsAt(i.queue);
  }

  lemma {:induction false} CancellationsAt(queue: seq<Queued>)
    ensures |Cancellations(queue)| == |queue|
    ensures forall k :: 0 <= k < |queue| ==> Cancellations(queue)[k] == Answer(queue[k].ticket, Canceled)
  {
    if queue != [] { CancellationsAt(queue[1..]); }
  }

  class ConversationRunner {
    var queue: seq<Queued>
    var processing: bool
    var hasRunner: bool
    var aborted: bool

    ghost function State(): Instance
      reads this
    {
      Instance(queue, processing, hasRunner, aborted)
    }

    constructor ()
      ensures State() == NEW_INSTANCE
    {
      queue, processing, hasRunner, aborted := [], false, false, false;
    }

    /** The locked section of enqueueing; sending the answer or the signal happens after it. */
    method EnqueueMessage(message: Queued, created: bool) returns (decision: Decision)
      modifies this
      ensures decision == Decide(old(State()), message)
      ensures State() == Enqueue(old(State()), message, created)
    {
      if aborted {
        return RejectIt;
      }
      if processing && hasRunner && !message.compact {
        return InjectIt;
      }
      queue := queue + [message];
      decision := QueueIt(!processing);
      if !processing {
        processing := true;
        hasRunner := created;
      }
    }

    method AbortConversationRun() returns (sent: seq<Answer>)
      modifies this
      ensures sent == Cancellations(old(State()).queue)
      ensures State() == Abort(old(State()))
    {
      aborted := true;
      sent := [];
      for index := 0 to |queue|
        invariant State() == old(State()).(aborted := true)
        invariant sent + Cancellations(queue[index..]) == Cancellations(queue)
      {
        assert queue[index..][1..] == queue[index + 1..];
        sent := sent + [Answer(queue[index].ticket, Canceled)];
      }
      queue := [];
    }

    /** The top of the processing loop: the next message, or the end of the processor. */
    method TakeNext() returns (found: bool, message: Queued)
      modifies this
      ensures State() == Dequeue(old(State()))
      ensures found == (old(State()).queue != []) && (found ==> message == old(State()).queue[0])
    {
      if |queue| == 0 {
        processing := false;
        hasRunner := false;
        return false, Queued(0, 0, false);
      }
      found, message := true, queue[0];
      queue := queue[1..];
    }

    /** Mid-run messages that slipped through are queued again, on channels nobody reads. */
    method RequeueSpilled(batch: seq<Payload>, tickets: seq<Ticket>)
      requires |batch| == |tickets|
      modifies this
      ensures State() == Requeue(old(State()), batch, tickets)
    {
      for index := 0 to |batch|
        invariant State() == old(State()).(queue := queue)
        invariant queue + Respawned(batch[index..], tickets[index..]) == old(queue) + Respawned(batch, tickets)
      {
        assert batch[index..][1..] == batch[index + 1..] && tickets[index..][1..] == tickets[index + 1..];
        queue := queue + [Queued(tickets[index], batch[index], false)];
      }
    }
  }

  /** The pending list of a runner. */
  class MidRunInbox {
    var messages: seq<Payload>

    constructor ()
      ensures messages == []
    {
      messages := [];
    }

    method Signal(message: Payload)
      modifies this
      ensures messages == old(messages) + [message]
    {
      messages := messages + [message];
    }

    method Drain() returns (drained: seq<Payload>)
      modifies this
      ensures drained == old(messages) && messages == []
    {
      drained := messages;
      messages := [];
    }
  }

  // ---------------------------------------------------------------------------------------
  // The handle of a run.
  // ---------------------------------------------------------------------------------------

  datatype Outcome = Succeeded(response: string) | Failed(error: string) | Nothing

  datatype HandleState = Pending | Resolved(outcome: Outcome)

  function ResolveOnce(state: HandleState, outcome: Outcome): HandleState {
    if state.Pending? then Resolved(outcome) else state
  }

  function ResolveAll(state: HandleState, outcomes: seq<Outcome>): HandleState
    decreases |outcomes|
  {
    if outcomes == [] then state else ResolveAll(ResolveOnce(state, outcomes[0]), outcomes[1..])
  }

  class RunHandle {
    var done: bool
    var outcome: Outcome

    ghost function State(): HandleState
      reads this
    {
      if done then Resolved(outcome) else Pending
    }

    constructor ()
      ensures State() == Pending
    {
      done, outcome := false, Nothing;
    }

    method Resolve(result: Outcome)
      modifies this
      ensures State() == ResolveOnce(old(State()), result)
    {
      if !done {
        outcome := result;
        done := true;
      }
    }
  }

  /** However often a handle is resolved, waiting on it gives the first outcome. */
  lemma {:induction false} FirstOutcomeWins(outcomes: seq<Outcome>)
    ensures ResolveAll(Pending, outcomes) == if outcomes == [] then Pending else Resolved(outcomes[0])
  {
    if outcomes != [] { ResolvedStays(outcomes[0], outcomes[1..]); }
  }

  lemma {:induction false} ResolvedStays(outcome: Outcome, outcomes: seq<Outcome>)
    ensures ResolveAll(Resolved(outcome), outcomes) == Resolved(outcome)
    decreases |outcomes|
  {
    if outcomes != [] { ResolvedStays(outcome, outcomes[1..]); }
  }

  /** How dispatching a message ended; an aborted run may still carry no error. */
  datatype Dispatched = Dispatched(injected: bool, aborted: bool, error: Option<string>, response: string)

  /** Injected messages and runs aborted without an error have no response and no error. */
  function OutcomeOf(d: Dispatched): Outcome {
    if d.injected then Nothing
    else if d.error.Some? then Failed(d.error.value)
    else if d.aborted then Nothing
    else Succeeded(d.response)
  }

  const TERMINATED := "coordinators: run terminated unexpectedly"

  /** The completion of a run, with the safety net that resolves the handle once more at the end. */
  method CompleteRun(handle: RunHandle, d: Dispatched)
    requires handle.State() == Pending
    modifies handle
    ensures handle.State() == Resolved(OutcomeOf(d))
    ensures !d.injected && d.error.Some? ==> handle.State() == Resolved(Failed(d.error.value))
    ensures !d.injected && d.error.None? && !d.aborted ==> handle.State() == Resolved(Succeeded(d.response))
    ensures d.injected || (d.error.None? && d.aborted) ==> handle.State() == Resolved(Nothing)
  {
    if d.injected {
      handle.Resolve(Nothing);
    } else if d.aborted {
      handle.Resolve(if d.error.Some? then Failed(d.error.value) else Nothing);
    } else if d.error.Some? {
      handle.Resolve(Failed(d.error.value));
    } else {
      handle.Resolve(Succeeded(d.response));
    }
    handle.Resolve(Failed(TERMINATED));
  }
}
