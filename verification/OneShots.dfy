/** When exactly the scheduler attempts a job, tick by tick and over whole runs. */
module OneShots {
  import opened Messages
  import opened CronFiring

  ghost function Bit(b: bool): nat { if b then 1 else 0 }

  /** A job that a tick may attempt at all. */
  ghost predicate Attemptable(job: Job) {
    job.enabled && job.hasUser && !job.webhook
  }

  /** A one-shot job whose time has come, and which can be disabled. */
  ghost predicate IsTime(job: Job, when: int, isStuck: bool) {
    Attemptable(job) && job.runAt.Some? && when >= job.runAt.value && !isStuck
  }

  /** The schedule of a job that is no one-shot matches the minute. */
  ghost predicate Matches(cron: Cron, job: Job, when: int) {
    Attemptable(job) && job.runAt.None? && cron(job.schedule, when / 60000) == Some(true)
  }

  /** What a tick makes of job `id`, which it finds as `job` if it lists it. */
  ghost predicate Attempts(
    cron: Cron, st: State, st': State, id: string, job: Job, listed: bool, when: int, isStuck: bool)
  {
    var now, once, matches := when / 60000, listed && IsTime(job, when, isStuck), listed && Matches(cron, job, when);
    Count(st'.log, OneShotFired(id)) == Count(st.log, OneShotFired(id)) + Bit(once) &&
    (forall minute: int :: Count(st'.log, CronFired(id, minute)) ==
      Count(st.log, CronFired(id, minute)) + Bit(matches && minute == now && LastFire(st, id) != Some(now))) &&
    LastFire(st', id) == (if matches then Some(now) else LastFire(st, id)) &&
    (if once then id in st'.jobs && st'.jobs[id] == job.(enabled := false)
     else (id in st.jobs <==> id in st'.jobs) && (id in st.jobs ==> st'.jobs[id] == st.jobs[id]))
  }

  /** What one more attempt at some job adds to the counts of job `id`. */
  lemma {:induction false} AttemptsCount(log: seq<Entry>, other: string, now: int, id: string)
    ensures Count(log + [OneShotFired(other)], OneShotFired(id)) == Count(log, OneShotFired(id)) + Bit(other == id)
    ensures Count(log + [CronFired(other, now)], OneShotFired(id)) == Count(log, OneShotFired(id))
    ensures forall minute: int ::
      Count(log + [OneShotFired(other)], CronFired(id, minute)) == Count(log, CronFired(id, minute))
    ensures forall minute: int ::
      Count(log + [CronFired(other, now)], CronFired(id, minute)) ==
      Count(log, CronFired(id, minute)) + Bit(other == id && minute == now)
  {
    CountSnoc(log, OneShotFired(other), OneShotFired(id));
    CountSnoc(log, CronFired(other, now), OneShotFired(id));
    forall minute: int
      ensures Count(log + [OneShotFired(other)], CronFired(id, minute)) == Count(log, CronFired(id, minute))
      ensures Count(log + [CronFired(other, now)], CronFired(id, minute)) ==
        Count(log, CronFired(id, minute)) + Bit(other == id && minute == now)
    {
      CountSnoc(log, OneShotFired(other), CronFired(id, minute));
      CountSnoc(log, CronFired(other, now), CronFired(id, minute));
    }
  }

  lemma {:induction false} OneShotAttempts(
    cron: Cron, st: State, other: string, job: Job, when: int, stuck: set<string>, id: string)
    requires IsTime(job, when, other in stuck)
    ensures Attempts(cron, st, FireJob(cron, st, other, job, when, stuck), id, job, other == id, when, id in stuck)
  {
    AttemptsCount(st.log, other, when / MINUTE, id);
    assert FireJob(cron, st, other, job, when, stuck) ==
      State(st.jobs[other := job.(enabled := false)], st.lastCronFire, st.log + [OneShotFired(other)]);
  }

  lemma {:induction false} ScheduleAttempts(
    cron: Cron, st: State, other: string, job: Job, when: int, stuck: set<string>, id: string)
    requires Matches(cron, job, when) && LastFire(st, other) != Some(when / MINUTE)
    ensures Attempts(cron, st, FireJob(cron, st, other, job, when, stuck), id, job, other == id, when, id in stuck)
  {
    AttemptsCount(st.log, other, when / MINUTE, id);
    assert FireJob(cron, st, other, job, when, stuck) ==
      State(st.jobs, st.lastCronFire[other := when / MINUTE], st.log + [CronFired(other, when / MINUTE)]);
  }

  lemma {:induction false} FiringAttempts(
    cron: Cron, st: State, other: string, job: Job, when: int, stuck: set<string>, id: string)
    ensures Attempts(cron, st, FireJob(cron, st, other, job, when, stuck), id, job, other == id, when, id in stuck)
  {
    if IsTime(job, when, other in stuck) {
      OneShotAttempts(cron, st, other, job, when, stuck, id);
    } else if Matches(cron, job, when) && LastFire(st, other) != Some(when / MINUTE) {
      ScheduleAttempts(cron, st, other, job, when, stuck, id);
    } else {
      assert FireJob(cron, st, other, job, when, stuck) == st;
    }
  }

  lemma {:induction false} TickAttempts(
    cron: Cron, st: State, order: seq<string>, jobs: map<string, Job>, when: int, stuck: set<string>, id: string,
    job: Job)
    requires forall other :: other in order ==> other in jobs
    requires forall i, j :: 0 <= i < j < |order| ==> order[i] != order[j]
    requires id in order ==> job == jobs[id]
    ensures Attempts(cron, st, FireJobs(cron, st, order, jobs, when, stuck), id, job, id in order, when, id in stuck)
    decreases |order|
  {
    if order != [] {
      var first, rest := order[0], order[1..];
      var st' := FireJob(cron, st, first, jobs[first], when, stuck);
      assert order == [first] + rest;
      FiringAttempts(cron, st, first, jobs[first], when, stuck, id);
      TickAttempts(cron, st', rest, jobs, when, stuck, id, job);
      assert first == id ==> id !in rest;
    }
  }

  lemma {:induction false} EnablingIsNoAttempt(log: seq<Entry>, other: string, id: string)
    ensures Count(log + [Enabled(other)], OneShotFired(id)) == Count(log, OneShotFired(id))
    ensures forall minute: int ::
      Count(log + [Enabled(other)], CronFired(id, minute)) == Count(log, CronFired(id, minute))
  {
    CountSnoc(log, Enabled(other), OneShotFired(id));
    forall minute: int
      ensures Count(log + [Enabled(other)], CronFired(id, minute)) == Count(log, CronFired(id, minute))
    {
      CountSnoc(log, Enabled(other), CronFired(id, minute));
    }
  }

  lemma {:induction false} EditAttemptsNothing(cron: Cron, st: State, e: Event, id: string)
    requires !e.Tick?
    ensures var st' := Next(cron, st, e);
      Count(st'.log, OneShotFired(id)) == Count(st.log, OneShotFired(id)) && LastFire(st', id) == LastFire(st, id) &&
      forall minute: int :: Count(st'.log, CronFired(id, minute)) == Count(st.log, CronFired(id, minute))
  {
    var log := Next(cron, st, e).log;
    assert log == st.log || (e.Edit? && log == st.log + [Enabled(e.id)]);
    if e.Edit? { EnablingIsNoAttempt(st.log, e.id, id); }
  }

  ghost predicate Changes(e: Event, id: string) {
    (e.Edit? && e.id == id) || (e.Remove? && e.id == id)
  }

  /** Every event of every run: a tick that can list its jobs attempts a job exactly when it finds it enabled, with
      a user and without a webhook, and either as a one-shot whose time has come and which it can disable, or by a
      schedule that matches in a minute it was not attempted in last. Nothing else attempts it. */
  lemma {:induction false} EventAttempts(cron: Cron, st: State, e: Event, id: string)
    requires Possible(st, e) && id in st.jobs && !Changes(e, id)
    ensures Attempts(cron, st, Next(cron, st, e), id, st.jobs[id], e.Tick? && e.listed,
      if e.Tick? then e.when else 0, e.Tick? && id in e.stuck)
  {
    if !e.Tick? {
      EditAttemptsNothing(cron, st, e, id);
    } else if e.listed {
      TickAttempts(cron, st, e.order, st.jobs, e.when, e.stuck, id, st.jobs[id]);
    }
  }

  /** A job that is not there is not attempted, and neither is one that is being edited or removed. */
  lemma {:induction false} OthersAreNotAttempted(cron: Cron, st: State, e: Event, id: string)
    requires Possible(st, e) && (id !in st.jobs || Changes(e, id))
    ensures Count(Next(cron, st, e).log, OneShotFired(id)) == Count(st.log, OneShotFired(id))
    ensures forall minute: int ::
      Count(Next(cron, st, e).log, CronFired(id, minute)) == Count(st.log, CronFired(id, minute))
  {
    if !e.Tick? {
      EditAttemptsNothing(cron, st, e, id);
    } else if e.listed {
      TickAttempts(cron, st, e.order, st.jobs, e.when, e.stuck, id, Job(false, false, false, None, ""));
    }
  }

  /** Saving a job puts it in place and counts as enabling it when it was not enabled before; removing it leaves
      the others. */
  lemma {:induction false} EditingSavesJob(cron: Cron, st: State, id: string, job: Job)
    ensures var saved, removed := Next(cron, st, Edit(id, job)), Next(cron, st, Remove(id));
      saved.jobs == st.jobs[id := job] && removed.jobs == st.jobs - {id} && removed.log == st.log &&
      Count(saved.log, Enabled(id)) ==
        Count(st.log, Enabled(id)) + Bit(job.enabled && (id in st.jobs ==> !st.jobs[id].enabled))
  {
    CountSnoc(st.log, Enabled(id), Enabled(id));
  }

  // ---------------------------------------------------------------------------------------
  // Over a run.
  // ---------------------------------------------------------------------------------------

  /** Nobody edits or removes the job. */
  ghost predicate LeftAlone(events: seq<Event>, id: string) {
    forall k :: 0 <= k < |events| ==> !Changes(events[k], id)
  }

  /** A listed tick at or behind the time of the job, at which it can be disabled. */
  ghost predicate Opens(e: Event, id: string, runAt: int) {
    e.Tick? && e.listed && e.when >= runAt && id !in e.stuck
  }

  ghost predicate SomeOpens(events: seq<Event>, id: string, runAt: int) {
    exists k :: 0 <= k < |events| && Opens(events[k], id, runAt)
  }

  /** What a run that leaves a one-shot job alone makes of it. */
  ghost predicate AttemptedIff(st: State, st': State, id: string, attempted: bool)
    requires id in st.jobs
  {
    Count(st'.log, OneShotFired(id)) == Count(st.log, OneShotFired(id)) + Bit(attempted) && id in st'.jobs &&
    st'.jobs[id] == (if attempted then st.jobs[id].(enabled := false) else st.jobs[id])
  }

  /** Over any run that leaves it alone, a one-shot job is attempted, once and for all, if and only if it is enabled,
      has a user and no webhook, and some listed tick at or behind its time can disable it. */
  lemma {:induction false} OneShotFiresIffTimeComes(cron: Cron, st: State, events: seq<Event>, id: string)
    requires PossibleRun(cron, st, events) && LeftAlone(events, id)
    requires id in st.jobs && st.jobs[id].runAt.Some?
    ensures AttemptedIff(st, Run(cron, st, events), id,
      Attemptable(st.jobs[id]) && SomeOpens(events, id, st.jobs[id].runAt.value))
    decreases |events|
  {
    if events != [] {
      var e, rest, runAt := events[0], events[1..], st.jobs[id].runAt.value;
      EventAttempts(cron, st, e, id);
      assert forall k :: 0 <= k < |rest| ==> rest[k] == events[k + 1];
      OneShotFiresIffTimeComes(cron, Next(cron, st, e), rest, id);
      assert SomeOpens(events, id, runAt) <==> Opens(e, id, runAt) || SomeOpens(rest, id, runAt) by {
        if SomeOpens(events, id, runAt) && !Opens(e, id, runAt) {
          var k :| 0 <= k < |events| && Opens(events[k], id, runAt);
          assert Opens(rest[k - 1], id, runAt);
        }
        if SomeOpens(rest, id, runAt) {
          var k :| 0 <= k < |rest| && Opens(rest[k], id, runAt);
          assert Opens(events[k + 1], id, runAt);
        }
      }
    }
  }

  lemma {:induction false} RunPrefix(cron: Cron, st: State, events: seq<Event>, k: nat)
    requires PossibleRun(cron, st, events) && k <= |events|
    ensures PossibleRun(cron, st, events[..k])
    ensures PossibleRun(cron, Run(cron, st, events[..k]), events[k..])
    ensures Run(cron, Run(cron, st, events[..k]), events[k..]) == Run(cron, st, events)
    decreases |events|
  {
    if k > 0 {
      RunPrefix(cron, Next(cron, st, events[0]), events[1..], k - 1);
      assert events[..k][1..] == events[1..][..k - 1] && events[k..] == events[1..][k - 1..];
    } else {
      assert events[0..] == events;
    }
  }

  /** It is attempted at the first such tick: not before it, whatever ticks come earlier, and never again. */
  lemma {:induction false} OneShotFiresAtItsFirstTick(cron: Cron, st: State, events: seq<Event>, id: string, k: nat)
    requires PossibleRun(cron, st, events) && LeftAlone(events, id) && k < |events|
    requires id in st.jobs && Attemptable(st.jobs[id]) && st.jobs[id].runAt.Some?
    requires Opens(events[k], id, st.jobs[id].runAt.value) && !SomeOpens(events[..k], id, st.jobs[id].runAt.value)
    ensures PossibleRun(cron, st, events[..k]) && AttemptedIff(st, Run(cron, st, events[..k]), id, false)
    ensures PossibleRun(cron, st, events[..k + 1]) && AttemptedIff(st, Run(cron, st, events[..k + 1]), id, true)
    ensures AttemptedIff(st, Run(cron, st, events), id, true)
  {
    RunPrefix(cron, st, events, k);
    RunPrefix(cron, st, events, k + 1);
    OneShotFiresIffTimeComes(cron, st, events[..k], id);
    assert events[..k + 1][k] == events[k];
    OneShotFiresIffTimeComes(cron, st, events[..k + 1], id);
    OneShotFiresIffTimeComes(cron, st, events, id);
  }
}
