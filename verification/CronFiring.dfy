/** The job scheduler: cron jobs fire once a minute, one-shot jobs once per enabling. */
module CronFiring {
  import opened Messages

  const MINUTE := 60000

  /** `runAt` makes a job one-shot. Times are milliseconds. */
  datatype Job = Job(enabled: bool, hasUser: bool, webhook: bool, runAt: Option<int>, schedule: string)

  /** Whether a schedule matches a minute; None when it is no schedule. */
  type Cron = (string, int) -> Option<bool>

  datatype Entry = CronFired(id: string, minute: int) | OneShotFired(id: string) | Enabled(id: string)

  /** `log` holds every attempt to trigger and every time a disabled job was enabled. */
  datatype State = State(jobs: map<string, Job>, lastCronFire: map<string, int>, log: seq<Entry>)

  /** `order` lists the jobs, `listed` is false when loading them fails, and a job in `stuck` cannot be disabled. */
  datatype Event =
    | Tick(when: int, order: seq<string>, listed: bool, stuck: set<string>)
    | Edit(id: string, job: Job)
    | Remove(id: string)

  /** The minute the job last fired in by its schedule. */
  function LastFire(st: State, id: string): Option<int> {
    if id in st.lastCronFire then Some(st.lastCronFire[id]) else None
  }

  function FireJob(cron: Cron, st: State, id: string, job: Job, when: int, stuck: set<string>): State {
    if !job.enabled || !job.hasUser || job.webhook then st
    else if job.runAt.Some? then
      if when >= job.runAt.value && id !in stuck
      then State(st.jobs[id := job.(enabled := false)], st.lastCronFire, st.log + [OneShotFired(id)])
      else st
    else if cron(job.schedule, when / MINUTE) == Some(true) && LastFire(st, id) != Some(when / MINUTE)
    then State(st.jobs, st.lastCronFire[id := when / MINUTE], st.log + [CronFired(id, when / MINUTE)])
    else st
  }

  /** `jobs` are the jobs as they were loaded. */
  function FireJobs(
    cron: Cron, st: State, order: seq<string>, jobs: map<string, Job>, when: int, stuck: set<string>): State
    requires forall id :: id in order ==> id in jobs
    decreases |order|
  {
    if order == [] then st
    else FireJobs(cron, FireJob(cron, st, order[0], jobs[order[0]], when, stuck), order[1..], jobs, when, stuck)
  }

  /** Each job is listed once. */
  ghost predicate Possible(st: State, e: Event) {
    e.Tick? ==>
      (forall id :: id in e.order <==> id in st.jobs) &&
      forall i, j :: 0 <= i < j < |e.order| ==> e.order[i] != e.order[j]
  }

  function Next(cron: Cron, st: State, e: Event): State
    requires e.Tick? ==> forall id :: id in e.order ==> id in st.jobs
  {
    match e
    case Tick(when, order, listed, stuck) => if listed then FireJobs(cron, st, order, st.jobs, when, stuck) else st
    case Edit(id, job) =>
      var enabling := job.enabled && !(id in st.jobs && st.jobs[id].enabled);
      State(st.jobs[id := job], st.lastCronFire, if enabling then st.log + [Enabled(id)] else st.log)
    case Remove(id) => State(st.jobs - {id}, st.lastCronFire, st.log)
  }

  class Scheduler {
    var jobs: map<string, Job>
    var lastCronFire: map<string, int>
    ghost var log: seq<Entry>

    ghost function Now(): State
      reads this
    {
      State(jobs, lastCronFire, log)
    }

    method Tick(cron: Cron, when: int, order: seq<string>, listed: bool, stuck: set<string>)
      requires Possible(Now(), Event.Tick(when, order, listed, stuck))
      modifies this
      ensures Now() == Next(cron, old(Now()), Event.Tick(when, order, listed, stuck))
    {
      if !listed {
        return;
      }
      var loaded, minuteBoundary := jobs, when / MINUTE;
      for index := 0 to |order|
        invariant FireJobs(cron, Now(), order[index..], loaded, when, stuck) ==
          FireJobs(cron, old(Now()), order, loaded, when, stuck)
      {
        assert order[index..][1..] == order[index + 1..];
        var id := order[index];
        var job := loaded[id];
        if !job.enabled || !job.hasUser || job.webhook {
          continue;
        }
        if job.runAt.Some? {
          if when >= job.runAt.value && id !in stuck {
            jobs := jobs[id := job.(enabled := false)];
            log := log + [OneShotFired(id)];
          }
          continue;
        }
        if cron(job.schedule, minuteBoundary) == Some(true) {
          var alreadyFired := id in lastCronFire && lastCronFire[id] == minuteBoundary;
          if !alreadyFired {
            lastCronFire := lastCronFire[id := minuteBoundary];
            log := log + [CronFired(id, minuteBoundary)];
          }
        }
      }
    }
  }

  // ---------------------------------------------------------------------------------------
  // Runs.
  // ---------------------------------------------------------------------------------------

  ghost predicate PossibleRun(cron: Cron, st: State, events: seq<Event>)
    decreases |events|
  {
    events == [] || (Possible(st, events[0]) && PossibleRun(cron, Next(cron, st, events[0]), events[1..]))
  }

  ghost function Run(cron: Cron, st: State, events: seq<Event>): State
    requires PossibleRun(cron, st, events)
    decreases |events|
  {
    if events == [] then st else Run(cron, Next(cron, st, events[0]), events[1..])
  }

  function Count(log: seq<Entry>, entry: Entry): nat {
    if log == [] then 0 else Count(log[..|log| - 1], entry) + (if log[|log| - 1] == entry then 1 else 0)
  }

  lemma {:induction false} CountSnoc(log: seq<Entry>, last: Entry, entry: Entry)
    ensures Count(log + [last], entry) == Count(log, entry) + (if last == entry then 1 else 0)
  {
    assert (log + [last])[..|log|] == log;
  }

  // ---------------------------------------------------------------------------------------
  // One-shot jobs.
  // ---------------------------------------------------------------------------------------

  function Charge(jobs: map<string, Job>, id: string): nat {
    if id in jobs && jobs[id].enabled then 1 else 0
  }

  /** Each enabling pays for one attempt, and an enabled job has its attempt still to come. */
  ghost predicate Paid(st: State, id: string, initially: nat) {
    Count(st.log, OneShotFired(id)) + Charge(st.jobs, id) <= Count(st.log, Enabled(id)) + initially
  }

  lemma {:induction false} OneFiringStaysPaid(
    cron: Cron, st: State, fired: string, job: Job, when: int, stuck: set<string>, id: string, initially: nat)
    requires fired == id ==> Charge(st.jobs, id) == if job.enabled then 1 else 0
    requires Paid(st, id, initially)
    ensures Paid(FireJob(cron, st, fired, job, when, stuck), id, initially)
    ensures fired != id ==> Charge(FireJob(cron, st, fired, job, when, stuck).jobs, id) == Charge(st.jobs, id)
  {
    CountSnoc(st.log, OneShotFired(fired), OneShotFired(id));
    CountSnoc(st.log, OneShotFired(fired), Enabled(id));
    CountSnoc(st.log, CronFired(fired, when / MINUTE), OneShotFired(id));
    CountSnoc(st.log, CronFired(fired, when / MINUTE), Enabled(id));
  }

  lemma {:induction false} FiringStaysPaid(
    cron: Cron, st: State, order: seq<string>, jobs: map<string, Job>, when: int, stuck: set<string>, id: string,
    initially: nat)
    requires forall other :: other in order ==> other in jobs
    requires forall i, j :: 0 <= i < j < |order| ==> order[i] != order[j]
    requires id in order ==> Charge(st.jobs, id) == Charge(jobs, id)
    requires Paid(st, id, initially)
    ensures Paid(FireJobs(cron, st, order, jobs, when, stuck), id, initially)
    decreases |order|
  {
    if order != [] {
      OneFiringStaysPaid(cron, st, order[0], jobs[order[0]], when, stuck, id, initially);
      var st' := FireJob(cron, st, order[0], jobs[order[0]], when, stuck);
      assert id in order[1..] ==> order[0] != id;
      FiringStaysPaid(cron, st', order[1..], jobs, when, stuck, id, initially);
    }
  }

  lemma {:induction false} StepStaysPaid(cron: Cron, st: State, e: Event, id: string, initially: nat)
    requires Possible(st, e) && Paid(st, id, initially)
    ensures Paid(Next(cron, st, e), id, initially)
  {
    match e {
      case Tick(when, order, listed, stuck) =>
        if listed { FiringStaysPaid(cron, st, order, st.jobs, when, stuck, id, initially); }
      case Edit(other, _) =>
        CountSnoc(st.log, Enabled(other), OneShotFired(id));
        CountSnoc(st.log, Enabled(other), Enabled(id));
      case Remove(_) =>
    }
  }

  lemma {:induction false} RunStaysPaid(cron: Cron, st: State, events: seq<Event>, id: string, initially: nat)
    requires PossibleRun(cron, st, events) && Paid(st, id, initially)
    ensures Paid(Run(cron, st, events), id, initially)
    decreases |events|
  {
    if events != [] {
      StepStaysPaid(cron, st, events[0], id, initially);
      RunStaysPaid(cron, Next(cron, st, events[0]), events[1..], id, initially);
    }
  }

  /** Over any run, a job is triggered as a one-shot at most once per time it was enabled. */
  lemma {:induction false} OneShotsFireOncePerEnabling(
    cron: Cron, jobs: map<string, Job>, events: seq<Event>, id: string)
    requires PossibleRun(cron, State(jobs, map[], []), events)
    ensures var log := Run(cron, State(jobs, map[], []), events).log;
      Count(log, OneShotFired(id)) <= Count(log, Enabled(id)) + Charge(jobs, id)
  {
    RunStaysPaid(cron, State(jobs, map[], []), events, id, Charge(jobs, id));
  }

  // ---------------------------------------------------------------------------------------
  // Cron jobs.
  // ---------------------------------------------------------------------------------------

  /** No attempt at the job lies behind `now`, and the last one is remembered. */
  ghost predicate Remembered(st: State, now: int, id: string) {
    (forall minute: int :: Count(st.log, CronFired(id, minute)) > 0 ==>
      id in st.lastCronFire && minute <= st.lastCronFire[id]) &&
    (id in st.lastCronFire ==>
      st.lastCronFire[id] <= now / MINUTE && Count(st.log, CronFired(id, st.lastCronFire[id])) > 0) &&
    forall minute: int :: Count(st.log, CronFired(id, minute)) <= 1
  }

  lemma {:induction false} FiringIsRemembered(
    cron: Cron, st: State, other: string, job: Job, when: int, stuck: set<string>, id: string)
    requires Remembered(st, when, id)
    ensures Remembered(FireJob(cron, st, other, job, when, stuck), when, id)
  {
    var st' := FireJob(cron, st, other, job, when, stuck);
    if |st'.log| > |st.log| {
      var last := st'.log[|st.log|];
      forall minute: int
        ensures Count(st'.log, CronFired(id, minute)) ==
          Count(st.log, CronFired(id, minute)) + (if last == CronFired(id, minute) then 1 else 0)
      {
        CountSnoc(st.log, last, CronFired(id, minute));
      }
    }
  }

  lemma {:induction false} TickIsRemembered(
    cron: Cron, st: State, order: seq<string>, jobs: map<string, Job>, when: int, stuck: set<string>, id: string)
    requires forall other :: other in order ==> other in jobs
    requires Remembered(st, when, id)
    ensures Remembered(FireJobs(cron, st, order, jobs, when, stuck), when, id)
    decreases |order|
  {
    if order != [] {
      FiringIsRemembered(cron, st, order[0], jobs[order[0]], when, stuck, id);
      var st' := FireJob(cron, st, order[0], jobs[order[0]], when, stuck);
      TickIsRemembered(cron, st', order[1..], jobs, when, stuck, id);
    }
  }

  function Later(e: Event, now: int): int {
    if e.Tick? then e.when else now
  }

  /** The clock of the ticks never goes back. */
  ghost predicate Ascending(events: seq<Event>, now: int)
    decreases |events|
  {
    events == [] || (now <= Later(events[0], now) && Ascending(events[1..], Later(events[0], now)))
  }

  lemma {:induction false} StepIsRemembered(cron: Cron, st: State, e: Event, now: int, id: string)
    requires Possible(st, e) && Remembered(st, now, id) && now <= Later(e, now)
    ensures Remembered(Next(cron, st, e), Later(e, now), id)
  {
    if e.Tick? {
      assert Remembered(st, e.when, id);
      if e.listed { TickIsRemembered(cron, st, e.order, st.jobs, e.when, e.stuck, id); }
    } else if e.Edit? {
      forall minute: int
        ensures Count(st.log + [Enabled(e.id)], CronFired(id, minute)) == Count(st.log, CronFired(id, minute))
      {
        CountSnoc(st.log, Enabled(e.id), CronFired(id, minute));
      }
    }
  }

  lemma {:induction false} RunIsRemembered(
    cron: Cron, st: State, events: seq<Event>, now: int, id: string) returns (end: int)
    requires PossibleRun(cron, st, events) && Ascending(events, now) && Remembered(st, now, id)
    ensures Remembered(Run(cron, st, events), end, id)
    decreases |events|
  {
    end := now;
    if events != [] {
      StepIsRemembered(cron, st, events[0], now, id);
      end := RunIsRemembered(cron, Next(cron, st, events[0]), events[1..], Later(events[0], now), id);
    }
  }

  /** While the clock never goes back, a job is triggered by its schedule at most once a minute, whatever
      else happens to it. */
  lemma {:induction false} CronFiresOncePerMinute(
    cron: Cron, jobs: map<string, Job>, events: seq<Event>, now: int, id: string, minute: int)
    requires PossibleRun(cron, State(jobs, map[], []), events) && Ascending(events, now)
    ensures Count(Run(cron, State(jobs, map[], []), events).log, CronFired(id, minute)) <= 1
  {
    var end := RunIsRemembered(cron, State(jobs, map[], []), events, now, id);
  }

  ghost predicate Due(cron: Cron, job: Job, minute: int) {
    job.enabled && job.hasUser && !job.webhook && job.runAt.None? && cron(job.schedule, minute) == Some(true)
  }

  /** The ticks of the run lie at most a minute apart, and in `minute` they find the job due. */
  ghost predicate Watched(cron: Cron, st: State, events: seq<Event>, now: int, id: string, minute: int)
    requires PossibleRun(cron, st, events)
    decreases |events|
  {
    events == [] ||
    (var e := events[0];
     now <= Later(e, now) <= now + MINUTE &&
     (e.Tick? && e.when / MINUTE == minute ==> e.listed && id in st.jobs && Due(cron, st.jobs[id], minute)) &&
     Watched(cron, Next(cron, st, e), events[1..], Later(e, now), id, minute))
  }

  function LastTick(events: seq<Event>, now: int): int
    decreases |events|
  {
    if events == [] then now else LastTick(events[1..], Later(events[0], now))
  }

  lemma {:induction false} DueJobIsFired(
    cron: Cron, st: State, order: seq<string>, jobs: map<string, Job>, when: int, stuck: set<string>, id: string)
    requires forall other :: other in order ==> other in jobs
    requires Remembered(st, when, id)
    requires (id in order && Due(cron, jobs[id], when / MINUTE)) ||
             (id in st.lastCronFire && st.lastCronFire[id] == when / MINUTE)
    ensures Count(FireJobs(cron, st, order, jobs, when, stuck).log, CronFired(id, when / MINUTE)) > 0
    decreases |order|
  {
    if order != [] {
      FiringIsRemembered(cron, st, order[0], jobs[order[0]], when, stuck, id);
      DueJobIsFired(cron, FireJob(cron, st, order[0], jobs[order[0]], when, stuck), order[1..], jobs, when, stuck, id);
    }
  }

  lemma {:induction false} FiringOnlyAppends(
    cron: Cron, st: State, order: seq<string>, jobs: map<string, Job>, when: int, stuck: set<string>, entry: Entry)
    requires forall id :: id in order ==> id in jobs
    ensures Count(st.log, entry) <= Count(FireJobs(cron, st, order, jobs, when, stuck).log, entry)
    decreases |order|
  {
    if order != [] {
      var st' := FireJob(cron, st, order[0], jobs[order[0]], when, stuck);
      if |st'.log| > |st.log| { CountSnoc(st.log, st'.log[|st.log|], entry); }
      FiringOnlyAppends(cron, st', order[1..], jobs, when, stuck, entry);
    }
  }

  lemma {:induction false} RunOnlyAppends(cron: Cron, st: State, events: seq<Event>, entry: Entry)
    requires PossibleRun(cron, st, events)
    ensures Count(st.log, entry) <= Count(Run(cron, st, events).log, entry)
    decreases |events|
  {
    if events != [] {
      match events[0] {
        case Tick(when, order, listed, stuck) =>
          if listed { FiringOnlyAppends(cron, st, order, st.jobs, when, stuck, entry); }
        case Edit(id, _) => CountSnoc(st.log, Enabled(id), entry);
        case Remove(_) =>
      }
      RunOnlyAppends(cron, Next(cron, st, events[0]), events[1..], entry);
    }
  }

  lemma {:induction false} WatchedMinuteIsFired(
    cron: Cron, st: State, events: seq<Event>, now: int, id: string, minute: int)
    requires PossibleRun(cron, st, events) && Remembered(st, now, id)
    requires Watched(cron, st, events, now, id, minute)
    requires now < minute * MINUTE && (minute + 1) * MINUTE <= LastTick(events, now)
    ensures Count(Run(cron, st, events).log, CronFired(id, minute)) > 0
    decreases |events|
  {
    var e, others := events[0], events[1..];
    var st' := Next(cron, st, e);
    StepIsRemembered(cron, st, e, now, id);
    if e.Tick? && e.when / MINUTE == minute {
      assert Remembered(st, e.when, id);
      DueJobIsFired(cron, st, e.order, st.jobs, e.when, e.stuck, id);
      RunOnlyAppends(cron, st', others, CronFired(id, minute));
    } else {
      WatchedMinuteIsFired(cron, st', others, Later(e, now), id, minute);
    }
  }

  lemma {:induction false} WatchedIsAscending(
    cron: Cron, st: State, events: seq<Event>, now: int, id: string, minute: int)
    requires PossibleRun(cron, st, events) && Watched(cron, st, events, now, id, minute)
    ensures Ascending(events, now)
    decreases |events|
  {
    if events != [] {
      WatchedIsAscending(cron, Next(cron, st, events[0]), events[1..], Later(events[0], now), id, minute);
    }
  }

  /** With ticks at most a minute apart, a job that is due throughout a fully elapsed minute is triggered
      for it exactly once. */
  lemma {:induction false} ElapsedMinuteFiresOnce(
    cron: Cron, jobs: map<string, Job>, events: seq<Event>, now: int, id: string, minute: int)
    requires PossibleRun(cron, State(jobs, map[], []), events)
    requires Watched(cron, State(jobs, map[], []), events, now, id, minute)
    requires now < minute * MINUTE && (minute + 1) * MINUTE <= LastTick(events, now)
    ensures Count(Run(cron, State(jobs, map[], []), events).log, CronFired(id, minute)) == 1
  {
    WatchedMinuteIsFired(cron, State(jobs, map[], []), events, now, id, minute);
    WatchedIsAscending(cron, State(jobs, map[], []), events, now, id, minute);
    CronFiresOncePerMinute(cron, jobs, events, now, id, minute);
  }

  // ---------------------------------------------------------------------------------------
  // When the clock may go back.
  // ---------------------------------------------------------------------------------------

  function TickMinutes(events: seq<Event>): seq<int> {
    if events == [] then []
    else (if events[0].Tick? then [events[0].when / MINUTE] else []) + TickMinutes(events[1..])
  }

  /** No tick falls into a minute that a tick of another minute has followed. */
  ghost predicate NeverReturns(minutes: seq<int>) {
    forall i, j, k :: 0 <= i < j < k < |minutes| && minutes[i] == minutes[k] ==> minutes[j] == minutes[i]
  }

  /** Every tick of the run finds the job due. */
  ghost predicate AlwaysDue(cron: Cron, st: State, events: seq<Event>, id: string)
    requires PossibleRun(cron, st, events)
    decreases |events|
  {
    events == [] ||
    (var e := events[0];
     (e.Tick? ==> e.listed && id in st.jobs && Due(cron, st.jobs[id], e.when / MINUTE)) &&
     AlwaysDue(cron, Next(cron, st, e), events[1..], id))
  }

  /** The minutes a job fires in when it is due at each of `minutes` and last fired in `last`. */
  function Fires(minutes: seq<int>, last: Option<int>): seq<int>
    decreases |minutes|
  {
    if minutes == [] then []
    else if last == Some(minutes[0]) then Fires(minutes[1..], last)
    else [minutes[0]] + Fires(minutes[1..], Some(minutes[0]))
  }

  function Occurs(minutes: seq<int>, minute: int): nat {
    if minutes == [] then 0 else (if minutes[0] == minute then 1 else 0) + Occurs(minutes[1..], minute)
  }

  lemma {:induction false} OtherJobFires(
    cron: Cron, st: State, other: string, job: Job, when: int, stuck: set<string>, id: string, minute: int)
    requires other != id
    ensures var st' := FireJob(cron, st, other, job, when, stuck);
      Count(st'.log, CronFired(id, minute)) == Count(st.log, CronFired(id, minute)) &&
      LastFire(st', id) == LastFire(st, id)
  {
    CountSnoc(st.log, OneShotFired(other), CronFired(id, minute));
    CountSnoc(st.log, CronFired(other, when / MINUTE), CronFired(id, minute));
  }

  /** A tick that finds the job due fires it unless it fired in this minute last. */
  lemma {:induction false} DueJobFiresUnlessLast(
    cron: Cron, st: State, order: seq<string>, jobs: map<string, Job>, when: int, stuck: set<string>, id: string,
    minute: int)
    requires forall other :: other in order ==> other in jobs
    requires forall i, j :: 0 <= i < j < |order| ==> order[i] != order[j]
    requires id in order ==> Due(cron, jobs[id], when / MINUTE)
    ensures var st' := FireJobs(cron, st, order, jobs, when, stuck); var now := when / MINUTE;
      Count(st'.log, CronFired(id, minute)) == Count(st.log, CronFired(id, minute)) +
        (if id in order && LastFire(st, id) != Some(now) && minute == now then 1 else 0) &&
      LastFire(st', id) == if id in order then Some(now) else LastFire(st, id)
    decreases |order|
  {
    if order != [] {
      var st' := FireJob(cron, st, order[0], jobs[order[0]], when, stuck);
      assert order == [order[0]] + order[1..];
      if order[0] == id {
        CountSnoc(st.log, CronFired(id, when / MINUTE), CronFired(id, minute));
      } else {
        OtherJobFires(cron, st, order[0], jobs[order[0]], when, stuck, id, minute);
      }
      DueJobFiresUnlessLast(cron, st', order[1..], jobs, when, stuck, id, minute);
    }
  }

  lemma {:induction false} RunFires(cron: Cron, st: State, events: seq<Event>, id: string, minute: int)
    requires PossibleRun(cron, st, events) && AlwaysDue(cron, st, events, id)
    ensures Count(Run(cron, st, events).log, CronFired(id, minute)) ==
      Count(st.log, CronFired(id, minute)) + Occurs(Fires(TickMinutes(events), LastFire(st, id)), minute)
    decreases |events|
  {
    if events != [] {
      var e, others := events[0], TickMinutes(events[1..]);
      RunFires(cron, Next(cron, st, e), events[1..], id, minute);
      if e.Tick? {
        DueJobFiresUnlessLast(cron, st, e.order, st.jobs, e.when, e.stuck, id, minute);
        var now := e.when / MINUTE;
        assert TickMinutes(events) == [now] + others && ([now] + others)[1..] == others;
        assert ([now] + Fires(others, Some(now)))[1..] == Fires(others, Some(now));
      } else {
        assert TickMinutes(events) == others;
        if e.Edit? { CountSnoc(st.log, Enabled(e.id), CronFired(id, minute)); }
      }
    }
  }

  lemma {:induction false} OccursIffMember(minutes: seq<int>, minute: int)
    ensures Occurs(minutes, minute) > 0 <==> minute in minutes
  {
    if minutes != [] {
      OccursIffMember(minutes[1..], minute);
      assert minutes == [minutes[0]] + minutes[1..];
    }
  }

  lemma {:induction false} FiresInEveryMinute(minutes: seq<int>, last: int, minute: int)
    ensures minute in [last] + Fires(minutes, Some(last)) <==> minute in [last] + minutes
    decreases |minutes|
  {
    if minutes != [] {
      FiresInEveryMinute(minutes[1..], minutes[0], minute);
      assert minutes == [minutes[0]] + minutes[1..];
    }
  }

  ghost predicate OncePerMinute(minutes: seq<int>) {
    forall minute: int :: Occurs(minutes, minute) <= 1
  }

  lemma {:induction false} OnceBehindFirst(first: int, rest: seq<int>)
    ensures OncePerMinute([first] + rest) <==> OncePerMinute(rest) && first !in rest
  {
    assert forall minute: int ::
      Occurs([first] + rest, minute) == (if first == minute then 1 else 0) + Occurs(rest, minute) by {
      assert ([first] + rest)[1..] == rest;
    }
    OccursIffMember(rest, first);
    if OncePerMinute([first] + rest) {
      assert Occurs([first] + rest, first) <= 1;
      assert forall minute: int :: Occurs(rest, minute) <= Occurs([first] + rest, minute);
    }
  }

  lemma {:induction false} NeverReturnsInRest(first: int, rest: seq<int>)
    requires rest != [] && NeverReturns([first] + rest)
    ensures NeverReturns(rest) && (first == rest[0] || first !in rest)
  {
    var all := [first] + rest;
    forall i, j, k | 0 <= i < j < k < |rest| && rest[i] == rest[k] ensures rest[j] == rest[i] {
      assert all[i + 1] == rest[i] && all[j + 1] == rest[j] && all[k + 1] == rest[k];
    }
    if first != rest[0] {
      forall k | 0 <= k < |rest| ensures rest[k] != first {
        assert all[0] == first && all[1] == rest[0] && all[k + 1] == rest[k];
      }
    }
  }

  lemma {:induction false} NeverReturnsWithFirst(first: int, rest: seq<int>)
    requires rest != [] && NeverReturns(rest) && (first == rest[0] || first !in rest)
    ensures NeverReturns([first] + rest)
  {
    var all := [first] + rest;
    forall i, j, k | 0 <= i < j < k < |all| && all[i] == all[k] ensures all[j] == all[i] {
      assert all[j] == rest[j - 1] && all[k] == rest[k - 1];
      if i > 0 {
        assert all[i] == rest[i - 1];
      } else {
        assert first in rest && rest[0] == first;
        assert j > 1 ==> rest[j - 1] == rest[0];
      }
    }
  }

  lemma {:induction false} FiresOnceIffNeverReturns(first: int, rest: seq<int>)
    ensures OncePerMinute([first] + Fires(rest, Some(first))) <==> NeverReturns([first] + rest)
    decreases |rest|
  {
    if rest == [] {
      OnceBehindFirst(first, []);
      assert Fires(rest, Some(first)) == [];
    } else {
      var next, others := rest[0], rest[1..];
      assert rest == [next] + others;
      FiresOnceIffNeverReturns(next, others);
      if NeverReturns([first] + rest) { NeverReturnsInRest(first, rest); }
      if NeverReturns(rest) && (first == next || first !in rest) { NeverReturnsWithFirst(first, rest); }
      if first != next {
        assert Fires(rest, Some(first)) == [next] + Fires(others, Some(next));
        OnceBehindFirst(first, [next] + Fires(others, Some(next)));
        FiresInEveryMinute(others, next, first);
      }
    }
  }

  /** A job that is due at each tick fires at most once in every minute if and only if its ticks never
      return to a minute that a tick of another minute has followed. */
  lemma {:induction false} DueJobFiresOnceIffClockNeverReturns(
    cron: Cron, jobs: map<string, Job>, events: seq<Event>, id: string)
    requires PossibleRun(cron, State(jobs, map[], []), events) && AlwaysDue(cron, State(jobs, map[], []), events, id)
    ensures var log := Run(cron, State(jobs, map[], []), events).log;
      (forall minute: int :: Count(log, CronFired(id, minute)) <= 1) <==> NeverReturns(TickMinutes(events))
  {
    var minutes, log := TickMinutes(events), Run(cron, State(jobs, map[], []), events).log;
    forall minute: int ensures Count(log, CronFired(id, minute)) == Occurs(Fires(minutes, None), minute) {
      RunFires(cron, State(jobs, map[], []), events, id, minute);
    }
    if minutes != [] {
      assert minutes == [minutes[0]] + minutes[1..];
      FiresOnceIffNeverReturns(minutes[0], minutes[1..]);
    }
    assert OncePerMinute(Fires(minutes, None)) <==> NeverReturns(minutes);
  }
}
