/** What the logs say after every interleaving: who was answered how and why, and where each injected message went. */
module CoordinatorLogs {
  import opened Coordinator
  import opened CoordinatorProtocol

  // ---------------------------------------------------------------------------------------
  // Every answer is deserved.
  // ---------------------------------------------------------------------------------------

  ghost predicate HasTicket(messages: seq<Queued>, ticket: Ticket) {
    exists k :: 0 <= k < |messages| && messages[k].ticket == ticket
  }

  /** A message with this ticket was taken from the queue, and started or cancelled there. */
  ghost predicate TakenWith(s: System, ticket: Ticket, started: bool) {
    exists k :: 0 <= k < |s.taken| && s.taken[k].message.ticket == ticket && s.taken[k].started == started
  }

  ghost predicate Deserved(s: System, answer: Answer) {
    (answer.result.Ran? ==> TakenWith(s, answer.ticket, true) && (answer.result.aborted ==> s.instance.aborted)) &&
    (answer.result.Injected? ==> HasTicket(s.sent, answer.ticket)) &&
    (answer.result.Canceled? ==>
      s.instance.aborted && (TakenWith(s, answer.ticket, false) || HasTicket(s.refused, answer.ticket)))
  }

  ghost predicate Within(messages: seq<Queued>, log: seq<Queued>) {
    forall k :: 0 <= k < |messages| ==> HasTicket(log, messages[k].ticket)
  }

  /** Answers sent are deserved, and those still to be sent will be. */
  ghost predicate AnswersDeserved(s: System) {
    (forall k :: 0 <= k < |s.answered| ==> Deserved(s, s.answered[k])) &&
    Within(s.rejecting, s.refused) && Within(s.acknowledging, s.sent) &&
    (s.refused != [] ==> s.instance.aborted) &&
    (s.processor.InRun? || s.processor.Sending? ==> TakenWith(s, s.processor.message.ticket, true)) &&
    (s.processor.Sending? && s.processor.aborted ==> s.instance.aborted)
  }

  lemma {:induction false} LogsGrow(s: System, e: Event)
    requires Enabled(s, e)
    ensures s.taken <= Step(s, e).taken && s.sent <= Step(s, e).sent && s.refused <= Step(s, e).refused
    ensures s.instance.aborted ==> Step(s, e).instance.aborted
  {
  }

  lemma {:induction false} DeservedStays(s: System, e: Event, answer: Answer)
    requires Enabled(s, e) && Deserved(s, answer)
    ensures Deserved(Step(s, e), answer)
  {
    LogsGrow(s, e);
    var t := Step(s, e);
    if answer.result.Ran? {
      var k :| 0 <= k < |s.taken| && s.taken[k].message.ticket == answer.ticket && s.taken[k].started;
      assert t.taken[k] == s.taken[k];
    } else if answer.result.Injected? {
      TicketStays(s.sent, t.sent, answer.ticket);
    } else if HasTicket(s.refused, answer.ticket) {
      TicketStays(s.refused, t.refused, answer.ticket);
    } else {
      var k :| 0 <= k < |s.taken| && s.taken[k].message.ticket == answer.ticket && !s.taken[k].started;
      assert t.taken[k] == s.taken[k];
    }
  }

  lemma {:induction false} TicketStays(log: seq<Queued>, longer: seq<Queued>, ticket: Ticket)
    requires log <= longer && HasTicket(log, ticket)
    ensures HasTicket(longer, ticket)
  {
    var k :| 0 <= k < |log| && log[k].ticket == ticket;
    assert longer[k] == log[k];
  }

  lemma {:induction false} TicketLogged(log: seq<Queued>, message: Queued)
    ensures HasTicket(log + [message], message.ticket)
  {
    assert (log + [message])[|log|] == message;
  }

  lemma {:induction false} WithinStays(messages: seq<Queued>, log: seq<Queued>, fewer: seq<Queued>, longer: seq<Queued>)
    requires Within(messages, log) && log <= longer
    requires forall k :: 0 <= k < |fewer| ==> fewer[k] in messages || HasTicket(longer, fewer[k].ticket)
    ensures Within(fewer, longer)
  {
    forall k | 0 <= k < |fewer| ensures HasTicket(longer, fewer[k].ticket) {
      if fewer[k] in messages {
        var i :| 0 <= i < |messages| && messages[i] == fewer[k];
        TicketStays(log, longer, messages[i].ticket);
      }
    }
  }

  lemma {:induction false} CallersStayLogged(s: System, e: Event)
    requires AnswersDeserved(s) && Enabled(s, e)
    ensures Within(Step(s, e).rejecting, Step(s, e).refused) && Within(Step(s, e).acknowledging, Step(s, e).sent)
  {
    var t := Step(s, e);
    LogsGrow(s, e);
    if e.EnqueueEvent? { TicketLogged(s.refused, e.message); }
    if e.SignalEvent? { TicketLogged(s.sent, s.injecting[e.index]); }
    if e.LateSignalEvent? { TicketLogged(s.sent, s.late[e.index]); }
    WithinStays(s.rejecting, s.refused, t.rejecting, t.refused);
    WithinStays(s.acknowledging, s.sent, t.acknowledging, t.sent);
  }

  lemma {:induction false} TakenStays(s: System, e: Event, ticket: Ticket, started: bool)
    requires Enabled(s, e) && TakenWith(s, ticket, started)
    ensures TakenWith(Step(s, e), ticket, started)
  {
    LogsGrow(s, e);
    var k :| 0 <= k < |s.taken| && s.taken[k].message.ticket == ticket && s.taken[k].started == started;
    assert Step(s, e).taken[k] == s.taken[k];
  }

  lemma {:induction false} ProcessorStaysLogged(s: System, e: Event)
    requires AnswersDeserved(s) && Enabled(s, e)
    ensures var t := Step(s, e);
      (t.processor.InRun? || t.processor.Sending? ==> TakenWith(t, t.processor.message.ticket, true)) &&
      (t.processor.Sending? && t.processor.aborted ==> t.instance.aborted)
  {
    var t := Step(s, e);
    LogsGrow(s, e);
    if e.TakeEvent? {
      if s.instance.queue != [] { assert t.taken[|s.taken|] == Taken(s.instance.queue[0], true); }
    } else if t.processor.InRun? || t.processor.Sending? {
      TakenStays(s, e, s.processor.message.ticket, true);
    }
  }

  lemma {:induction false} RejectionsAt(queue: seq<Queued>)
    ensures |Rejections(queue)| == |queue|
    ensures forall k :: 0 <= k < |queue| ==> Rejections(queue)[k] == Taken(queue[k], false)
  {
    if queue != [] { RejectionsAt(queue[1..]); }
  }

  lemma {:induction false} NewAnswersAreDeserved(s: System, e: Event, k: nat)
    requires AnswersDeserved(s) && Enabled(s, e) && |s.answered| <= k < |Step(s, e).answered|
    ensures Deserved(Step(s, e), Step(s, e).answered[k])
  {
    var t := Step(s, e);
    if e.AbortEvent? {
      CancellationsAt(s.instance.queue);
      RejectionsAt(s.instance.queue);
      assert t.taken[|s.taken| + (k - |s.answered|)] == Taken(s.instance.queue[k - |s.answered|], false);
    } else if e.SendEvent? {
      TakenStays(s, e, s.processor.message.ticket, true);
    }
  }

  lemma {:induction false} StepKeepsAnswersDeserved(s: System, e: Event)
    requires AnswersDeserved(s) && Enabled(s, e)
    ensures AnswersDeserved(Step(s, e))
  {
    var t := Step(s, e);
    CallersStayLogged(s, e);
    ProcessorStaysLogged(s, e);
    LogsGrow(s, e);
    assert s.answered <= t.answered;
    forall k | 0 <= k < |t.answered| ensures Deserved(t, t.answered[k]) {
      if k < |s.answered| { DeservedStays(s, e, s.answered[k]); } else { NewAnswersAreDeserved(s, e, k); }
    }
  }

  // ---------------------------------------------------------------------------------------
  // Every message any runner was signalled is somewhere.
  // ---------------------------------------------------------------------------------------

  /** Each message signalled to a runner was settled by an earlier one, is with the current one, or is stranded. */
  ghost predicate SignalsConserved(s: System) {
    multiset(s.sent) == multiset(Settled(s.past)) + multiset(s.signalled) + multiset(s.stranded)
  }

  ghost predicate NoneCompacts(messages: seq<Queued>) {
    forall k :: 0 <= k < |messages| ==> !messages[k].compact
  }

  /** Requests to compact are never injected. */
  ghost predicate OnlyMessagesInjected(s: System) {
    NoneCompacts(s.injecting) && NoneCompacts(s.late) && NoneCompacts(s.sent)
  }

  lemma {:induction false} NewRunnerConserves(s: System)
    requires Inv(s) && s.processor.Idle? && SignalsConserved(s)
    ensures SignalsConserved(NewRunner(s))
  {
    SettledOfConcat(s.past, s.handled);
    assert s.signalled == Settled(s.handled) + [] + s.inbox;
  }

  lemma {:induction false} StepKeepsSignals(s: System, e: Event)
    requires Inv(s) && SignalsConserved(s) && Enabled(s, e)
    ensures SignalsConserved(Step(s, e))
  {
    SignalLogs(s, e);
    if e.EnqueueEvent? && Decide(s.instance, e.message) == QueueIt(true) { NewRunnerConserves(s); }
  }

  ghost predicate SameSignals(s: System, t: System) {
    t.sent == s.sent && t.past == s.past && t.signalled == s.signalled && t.stranded == s.stranded
  }

  lemma {:induction false} SignalLogs(s: System, e: Event)
    requires Enabled(s, e)
    ensures var t := Step(s, e);
      if e.EnqueueEvent? && Decide(s.instance, e.message) == QueueIt(true) then SameSignals(NewRunner(s), t)
      else if e.SignalEvent? then
        SameSignals(s.(sent := s.sent + [s.injecting[e.index]], signalled := s.signalled + [s.injecting[e.index]]), t)
      else if e.LateSignalEvent? then
        SameSignals(s.(sent := s.sent + [s.late[e.index]], stranded := s.stranded + [s.late[e.index]]), t)
      else SameSignals(s, t)
  {
  }

  lemma {:induction false} StepInjectsOnlyMessages(s: System, e: Event)
    requires OnlyMessagesInjected(s) && Enabled(s, e)
    ensures OnlyMessagesInjected(Step(s, e))
  {
    if e.SignalEvent? {
      assert forall m :: m in Without(s.injecting, e.index) ==> m in s.injecting;
    } else if e.LateSignalEvent? {
      assert forall m :: m in Without(s.late, e.index) ==> m in s.late;
    }
  }

  // ---------------------------------------------------------------------------------------
  // A message queued again goes on as one of its own.
  // ---------------------------------------------------------------------------------------

  ghost predicate HasSuccessor(s: System, entry: Handled) {
    entry.fate.Requeued? ==>
      entry.fate.successor in s.issued && Queued(entry.fate.successor, entry.message.payload, false) in s.accepted
  }

  ghost predicate SuccessorsDiffer(entries: seq<Handled>) {
    forall i, j :: 0 <= i < j < |entries| && entries[i].fate.Requeued? ==> entries[i].fate != entries[j].fate
  }

  ghost predicate SuccessorsQueued(s: System) {
    (forall k :: 0 <= k < |s.past + s.handled| ==> HasSuccessor(s, (s.past + s.handled)[k])) &&
    SuccessorsDiffer(s.past + s.handled)
  }

  lemma {:induction false} CarriedAt(messages: seq<Queued>, k: nat)
    requires k < |messages|
    ensures Carried(messages)[k] == messages[k].payload
  {
    if k > 0 { CarriedAt(messages[1..], k - 1); }
  }

  lemma {:induction false} RequeuingsAt(batch: seq<Queued>, tickets: seq<Ticket>)
    requires |batch| == |tickets|
    ensures |Requeuings(batch, tickets)| == |batch|
    ensures forall k :: 0 <= k < |batch| ==> Requeuings(batch, tickets)[k] == Handled(batch[k], Requeued(tickets[k]))
  {
    if batch != [] { RequeuingsAt(batch[1..], tickets[1..]); }
  }

  /** Behind the queue there was, one message for each spilled one: in order, with its payload, no compaction. */
  lemma {:induction false} SpilledAreQueuedAgain(s: System, tickets: seq<Ticket>)
    requires Enabled(s, RequeueEvent(tickets))
    ensures var t, spill := Step(s, RequeueEvent(tickets)), s.processor.spill; var n := |s.instance.queue|;
      |t.instance.queue| == n + |spill| && t.instance.queue[..n] == s.instance.queue &&
      (forall k :: 0 <= k < |spill| ==> t.instance.queue[n + k] == Queued(tickets[k], spill[k].payload, false)) &&
      t.accepted == s.accepted + t.instance.queue[n..]
  {
    var spill := s.processor.spill;
    RequeueQueuesEachMessage(s.instance, Carried(spill), tickets);
    forall k | 0 <= k < |spill| ensures Carried(spill)[k] == spill[k].payload { CarriedAt(spill, k); }
  }

  lemma {:induction false} RequeueFindsSuccessors(s: System, tickets: seq<Ticket>)
    requires SuccessorsQueued(s) && Enabled(s, RequeueEvent(tickets))
    ensures SuccessorsQueued(Step(s, RequeueEvent(tickets)))
  {
    var t, spill := Step(s, RequeueEvent(tickets)), s.processor.spill;
    var before, after, n := s.past + s.handled, t.past + t.handled, |s.instance.queue|;
    SpilledAreQueuedAgain(s, tickets);
    RequeuingsAt(spill, tickets);
    assert |after| == |before| + |spill| && after[..|before|] == before;
    forall k | 0 <= k < |after|
      ensures HasSuccessor(t, after[k])
      ensures k >= |before| ==> after[k] == Handled(spill[k - |before|], Requeued(tickets[k - |before|]))
    {
      if k < |before| {
        assert after[k] == before[k];
        assert HasSuccessor(s, before[k]);
      } else {
        var at := k - |before|;
        assert after[k] == Handled(spill[at], Requeued(tickets[at]));
        assert t.instance.queue[n..][at] == Queued(tickets[at], spill[at].payload, false);
        assert t.accepted[|s.accepted| + at] == t.instance.queue[n..][at];
      }
    }
    forall i, j | 0 <= i < j < |after| && after[i].fate.Requeued? ensures after[i].fate != after[j].fate {
      if j < |before| {
        assert after[i] == before[i] && after[j] == before[j];
      } else if i < |before| {
        assert HasSuccessor(s, before[i]);
        assert after[i] == before[i];
      }
    }
  }

  lemma {:induction false} StepKeepsSuccessors(s: System, e: Event)
    requires SuccessorsQueued(s) && Enabled(s, e)
    ensures SuccessorsQueued(Step(s, e))
  {
    if e.RequeueEvent? {
      RequeueFindsSuccessors(s, e.tickets);
    } else {
      var t := Step(s, e);
      var before, after := s.past + s.handled, t.past + t.handled;
      assert s.accepted <= t.accepted && s.issued <= t.issued;
      NoNewSuccessor(s, e);
      forall k | 0 <= k < |after| ensures HasSuccessor(t, after[k]) {
        if k < |before| { assert after[k] == before[k] && HasSuccessor(s, before[k]); }
      }
    }
  }

  lemma {:induction false} FatedAt(batch: seq<Queued>, fate: Fate)
    ensures |Fated(batch, fate)| == |batch|
    ensures forall k :: 0 <= k < |batch| ==> Fated(batch, fate)[k] == Handled(batch[k], fate)
  {
    if batch != [] { FatedAt(batch[1..], fate); }
  }

  lemma {:induction false} NoNewSuccessor(s: System, e: Event)
    requires Enabled(s, e) && !e.RequeueEvent?
    ensures var t := Step(s, e); var before, after := s.past + s.handled, t.past + t.handled;
      before <= after && forall k :: |before| <= k < |after| ==> !after[k].fate.Requeued?
  {
    if e.PersistFailsEvent? { FatedAt(s.processor.phase.batch, Lost); }
  }

  // ---------------------------------------------------------------------------------------
  // Whole runs.
  // ---------------------------------------------------------------------------------------

  ghost predicate LogsInv(s: System) {
    Inv(s) && AnswersDeserved(s) && SignalsConserved(s) && OnlyMessagesInjected(s) && SuccessorsQueued(s)
  }

  lemma {:induction false} RunKeepsLogs(s: System, events: seq<Event>)
    requires LogsInv(s) && EnabledRun(s, events)
    ensures LogsInv(Run(s, events))
    decreases |events|
  {
    if events != [] {
      StepKeepsInv(s, events[0]);
      StepKeepsAnswersDeserved(s, events[0]);
      StepKeepsSignals(s, events[0]);
      StepInjectsOnlyMessages(s, events[0]);
      StepKeepsSuccessors(s, events[0]);
      RunKeepsLogs(Step(s, events[0]), events[1..]);
    }
  }

  lemma {:induction false} TakenMember(taken: seq<Taken>, message: Queued)
    ensures message in TakenMessages(taken) <==> Taken(message, true) in taken || Taken(message, false) in taken
  {
    if taken != [] {
      TakenMember(taken[1..], message);
      assert taken == [taken[0]] + taken[1..];
      assert taken[0] == Taken(taken[0].message, taken[0].started);
    }
  }

  /** After every interleaving: each answer says what happened to its message, each message signalled to any
      runner was settled or is held or stranded, and no request to compact was injected. */
  lemma {:induction false} EveryAnswerIsDeserved(events: seq<Event>)
    requires EnabledRun(START, events)
    ensures AnswersDeserved(Run(START, events)) && SignalsConserved(Run(START, events))
    ensures OnlyMessagesInjected(Run(START, events))
  {
    RunKeepsLogs(START, events);
  }

  /** Each message that any runner of a run has queued again has a successor of its own with its payload, and
      that one has been started, cancelled, or is still queued. */
  lemma {:induction false} EveryRequeuedMessageGoesOn(events: seq<Event>, k: nat)
    requires EnabledRun(START, events)
    requires var s := Run(START, events); k < |s.past + s.handled| && (s.past + s.handled)[k].fate.Requeued?
    ensures var s := Run(START, events); var entry := (s.past + s.handled)[k];
      var successor := Queued(entry.fate.successor, entry.message.payload, false);
      (Taken(successor, true) in s.taken || Taken(successor, false) in s.taken || successor in s.instance.queue) &&
      forall i :: 0 <= i < |s.past + s.handled| && i != k ==> (s.past + s.handled)[i].fate != entry.fate
  {
    RunKeepsLogs(START, events);
    var s := Run(START, events);
    var entries := s.past + s.handled;
    assert HasSuccessor(s, entries[k]);
    var successor := Queued(entries[k].fate.successor, entries[k].message.payload, false);
    TakenMember(s.taken, successor);
    assert forall i :: 0 <= i < |entries| && i != k && entries[i].fate.Requeued? ==> entries[i].fate != entries[k].fate;
  }

  /** Where a message goes: refused by an aborted instance, injected where a runner works and it is no request
      to compact, and behind the queue otherwise, with a processor to take it. */
  lemma {:induction false} EnqueuedGoesToItsPlace(s: System, message: Queued, created: bool)
    requires Inv(s) && Enabled(s, EnqueueEvent(message, created))
    ensures var t := Step(s, EnqueueEvent(message, created));
      if s.instance.aborted then
        t == s.(issued := t.issued, rejecting := s.rejecting + [message], refused := s.refused + [message])
      else if !s.processor.Idle? && s.instance.hasRunner && !message.compact then
        t == s.(issued := t.issued, injecting := s.injecting + [message])
      else
        t.instance.queue == s.instance.queue + [message] && t.accepted == s.accepted + [message] &&
        t.instance.processing && !t.processor.Idle? &&
        t.instance.hasRunner == (if s.processor.Idle? then created else s.instance.hasRunner) &&
        t.rejecting == s.rejecting && t.injecting + t.late == (if s.processor.Idle? then [] else s.injecting) + t.late
  {
  }

  /** The processor goes on with the first message of the queue, in rounds unless that is a request to compact or
      there is no runner; and it ends, with its runner, exactly when nothing is queued. */
  lemma {:induction false} FirstInQueueRuns(s: System)
    requires Inv(s) && Enabled(s, TakeEvent)
    ensures var t, queue := Step(s, TakeEvent), s.instance.queue;
      if queue == [] then t.processor.Idle? && !t.instance.processing && !t.instance.hasRunner && t.taken == s.taken
      else
        t.processor.InRun? && t.processor.message == queue[0] && t.instance.queue == queue[1..] &&
        t.taken == s.taken + [Taken(queue[0], true)] &&
        (t.processor.phase == RoundTop <==> !queue[0].compact && s.instance.hasRunner) &&
        (t.processor.phase == Ended(false) <==> queue[0].compact || !s.instance.hasRunner)
  {
  }

  /** Behind an abort, every run that was not about to send its answer yet is answered as aborted. */
  lemma {:induction false} AbortedRunsSaySo(s: System, events: seq<Event>, k: nat)
    requires s.instance.aborted && (s.processor.Sending? ==> s.processor.aborted) && EnabledRun(s, events)
    requires |s.answered| <= k < |Run(s, events).answered|
    ensures Run(s, events).answered[k].result != Ran(false)
    decreases |events|
  {
    if events != [] {
      var next := Step(s, events[0]);
      LogsGrow(s, events[0]);
      if k >= |next.answered| {
        AbortedRunsSaySo(next, events[1..], k);
      } else {
        AnswersGrow(next, events[1..]);
        assert Run(s, events).answered[k] == next.answered[k];
        if events[0].AbortEvent? { CancellationsAt(s.instance.queue); }
      }
    }
  }

  lemma {:induction false} AnswersGrow(s: System, events: seq<Event>)
    requires EnabledRun(s, events)
    ensures s.answered <= Run(s, events).answered
    decreases |events|
  {
    if events != [] { AnswersGrow(Step(s, events[0]), events[1..]); }
  }

  ghost predicate Concluding(s: System) {
    s.processor.InRun? && (s.processor.phase.FinalDrain? || s.processor.phase == Ended(true))
  }

  lemma {:induction false} CleanEndFollowsCall(s: System, events: seq<Event>)
    requires !Concluding(s) && EnabledRun(s, events) && EndedClean(Run(s, events))
    ensures NoToolCallsEvent in events
    decreases |events|
  {
    if events[0] != NoToolCallsEvent { CleanEndFollowsCall(Step(s, events[0]), events[1..]); }
  }

  /** Behind each message it persists, a run that ends cleanly calls the model and needs no tool. */
  lemma {:induction false} PersistedMessagesAreAnswered(s: System, events: seq<Event>)
    requires Enabled(s, PersistEvent) && EnabledRun(Step(s, PersistEvent), events)
    requires EndedClean(Run(Step(s, PersistEvent), events))
    ensures NoToolCallsEvent in events
  {
    CleanEndFollowsCall(Step(s, PersistEvent), events);
  }
}
