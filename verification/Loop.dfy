/** `JobWorker` of `src/jobs/worker.rs` as it runs: methods over the store, the
    scheduler, the counters and the breakers, each ending where the machine's steps end. */
module Loop {
  import opened Options
  import opened JobModel
  import opened Store
  import opened Scheduler
  import opened Running
  import opened Reliability
  import opened Recovery
  import opened Ledger
  import opened Worker
  import opened Crew

  // ------------------------------------------------ what the methods compute

  lemma {:induction false} SmallerSet(a: set<string>, b: set<string>)
    requires a < b
    ensures |a| < |b|
  {
    assert b == a + (b - a);
  }

  lemma {:induction false} SelectedShrinks(s: System, limits: Limits)
    requires SchedOk(s.sched) && s.phase.Serving?
    ensures var t := Selected(s, limits);
            && SchedOk(t.sched)
            && (t.phase.Serving? || t.phase.Claiming?)
            && (t.phase.Claiming? ==> |t.sched.pending| < |s.sched.pending|)
  {
    PopKeepsSched(s.sched, Eligible(s.running, limits, s.circuits, s.now));
    var t := Selected(s, limits);
    if t.phase.Claiming? {
      SmallerSet(t.sched.pending, s.sched.pending);
    }
    hide PopFrom; hide SchedOk; hide Eligible; hide Sched.Jobs; hide NoHeadEligible;
  }

  /** `while let Some(job) = scheduler.pop_next(..)`: select and claim until nothing may start. */
  ghost function Dispatched(s: System, limits: Limits, fate: string -> Write): System
    requires SchedOk(s.sched) && s.phase.Serving?
    decreases |s.sched.pending|
  {
    SelectedShrinks(s, limits);
    var t := Selected(s, limits);
    if t.phase.Serving? then t else Dispatched(Claimed(t, t.phase.job, fate(t.phase.job.id)), limits, fate)
  }

  /** What is written once the breaker has been told. */
  function FollowedUp(t: System, digest: nat, w1: Write, w2: Write): System {
    match t.phase
    case Clearing(id) => ErrorCleared(t, id, w1)
    case Attaching(job, error) =>
      var u := ClassAttached(t, job, error, w1);
      if Retries(job, error) then Retried(u, job, digest, w2) else u
    case _ => t
  }

  /** `apply_reliability` in one go, from the outcome joined to the next iteration. */
  function Concluded(s: System, guessed: JobErrorClass, digest: nat, w1: Write, w2: Write): System
    requires s.phase.Judging?
  {
    FollowedUp(Judged(s, s.phase.job, guessed), digest, w1, w2)
  }

  /** One outcome taken in, up to the next iteration. */
  function TakenIn(s: System, i: nat, outcome: Outcome, w: Write, guessed: JobErrorClass, digest: nat, w1: Write,
          w2: Write): System
    requires i < |s.tasks|
  {
    Concluded(Joined(s, i, outcome, w, Judging(s.tasks[i])), guessed, digest, w1, w2)
  }

  /** An outcome that arrives during the grace period: which task, what, and its write. */
  datatype Late = Late(task: nat, outcome: Outcome, w: Write)

  /** The grace period: outcomes are taken in while there are any, then the rest is aborted. */
  function DrainedTasks(s: System, outcomes: seq<Late>): System
    decreases |outcomes|
  {
    if s.tasks == [] then s
    else if outcomes == [] then s.(tasks := [])
    else DrainedTasks(Joined(s, outcomes[0].task % |s.tasks|, outcomes[0].outcome, outcomes[0].w, Draining),
      outcomes[1..])
  }

  /** What is still running is marked interrupted, job by job. */
  function MarkAll(f: Files, jobs: seq<Job>, now: int, fate: string -> Write): Files
    decreases |jobs|
  {
    if jobs == [] then f
    else
      var g := if jobs[0].status.Running? then Updated(f, jobs[0].id, Interrupt, now, fate(jobs[0].id)) else f;
      MarkAll(g, jobs[1..], now, fate)
  }

  /** `drain_for_shutdown`. */
  function Drained(s: System, outcomes: seq<Late>, fate: string -> Write): System {
    var t := DrainedTasks(s, outcomes);
    t.(files := MarkAll(t.files, NewestFirst(t.files.mem), t.now, fate))
  }

  class JobWorker {
    const store: JobStore
    const scheduler: FairScheduler
    const running: RunningJobs
    const circuits: CircuitBreakers
    var tasks: seq<Job>
    ghost var starts: Starts
    ghost var kinds: map<string, JobKind>
    ghost var unsent: set<string>

    ghost predicate Valid()
      reads this, store, scheduler
    {
      store.Valid() && scheduler.Valid()
    }

    ghost function View(phase: Phase, now: int): System
      reads this, store, scheduler, scheduler.high, scheduler.normal, scheduler.low, running, circuits
    {
      System(store.View(), scheduler.View(), tasks, running.View(), circuits.View(), phase, now, starts, kinds, unsent)
    }

    /** A fresh worker beside a loaded store. */
    constructor (store: JobStore)
      requires store.Valid()
      ensures Valid() && this.store == store && store.View() == old(store.View())
      ensures forall p, now :: View(p, now) ==
                Rested(old(store.View()), p, now, map[], map[])
    {
      this.store := store;
      scheduler := new FairScheduler();
      running := new RunningJobs();
      circuits := new CircuitBreakers();
      tasks := [];
      starts, kinds, unsent := map[], map[], {};
    }

    method QueuePendingJob(id: string, now: int)
      requires Valid() && DistinctIds(store.jobs)
      modifies scheduler, scheduler.high, scheduler.normal, scheduler.low
      ensures Valid() && scheduler.View() == QueuePending(old(scheduler.View()), store.jobs, id, now)
    {
      hide DistinctIds; hide Lookup; hide PushTo;
      var job := store.Get(id);
      if job.None? {
        return;
      }
      if job.value.status.Queued? && IsDue(job.value, now) {
        scheduler.Push(job.value);
      }
    }

    method ReconcileQueuedJobs(now: int)
      requires Valid() && DistinctIds(store.jobs)
      modifies scheduler, scheduler.high, scheduler.normal, scheduler.low
      ensures Valid()
      ensures scheduler.View() == QueueAll(old(scheduler.View()), store.jobs, Dropped(store.jobs, now), now)
    {
      var dropped := Dropped(store.jobs, now);
      hide Dropped; hide QueuePending; hide DistinctIds;
      assert dropped[0..] == dropped;
      for i := 0 to |dropped|
        invariant Valid()
        invariant QueueAll(old(scheduler.View()), store.jobs, dropped, now)
                == QueueAll(scheduler.View(), store.jobs, dropped[i..], now)
      {
        assert dropped[i..][1..] == dropped[i + 1..];
        QueuePendingJob(dropped[i], now);
      }
      assert dropped[|dropped|..] == [];
    }

    /** The closure of `pop_next` asks the breaker of each job that the limits admit; by
        SelectionMarksOneProbe only the accepted job's breaker changes. */
    method SelectNext(limits: Limits, now: int) returns (job: Option<Job>)
      requires Valid()
      modifies scheduler, scheduler.high, scheduler.normal, scheduler.low, circuits
      ensures Valid()
      ensures View(if job.Some? then Claiming(job.value, limits) else Serving, now)
              == Selected(old(View(Serving, now)), limits)
    {
      hide PopFrom; hide Ask; hide Eligible; hide Allows;
      job := scheduler.PopNext(Eligible(running.View(), limits, circuits.View(), now));
      if job.Some? {
        var _ := circuits.Allow(ClassOf(job.value), now);
      }
    }

    method ClaimJob(job: Job, limits: Limits, now: int, w: Write) returns (started: bool)
      requires Valid()
      modifies this`tasks, this`starts, store, running, circuits
      ensures Valid() && scheduler.View() == old(scheduler.View()) && kinds == old(kinds)
      ensures View(Serving, now) == Claimed(old(View(Claiming(job, limits), now)), job, w)
      ensures started == (old(|tasks|) < |tasks|)
    {
      hide EditList; hide Lookup; hide Start; hide BuildIndex;
      ghost var before := store.jobs;
      var claimed := store.UpdateIf(job.id, Edit.Claim(job.priority), now, w);
      ClaimedInList(before, job.id, job.priority, now);
      if claimed.None? {
        circuits.ReleaseProbe(ClassOf(job));
        return false;
      }
      running.Started(job);
      tasks := tasks + [job];
      starts := starts[job.id := Count(starts, job.id) + 1];
      return true;
    }

    method Dispatch(limits: Limits, now: int, fate: string -> Write)
      requires Valid() && SchedOk(scheduler.View())
      modifies this`tasks, this`starts, store, scheduler, scheduler.high, scheduler.normal, scheduler.low, running,
              circuits
      ensures Valid() && View(Serving, now) == Dispatched(old(View(Serving, now)), limits, fate)
    {
      hide Selected; hide Claimed; hide SchedOk; hide FairScheduler.Valid; hide JobStore.Valid;
      ghost var goal := Dispatched(View(Serving, now), limits, fate);
      while true
        invariant Valid() && SchedOk(scheduler.View())
        invariant Dispatched(View(Serving, now), limits, fate) == goal
        decreases |scheduler.View().pending|
      {
        SelectedShrinks(View(Serving, now), limits);
        label Selecting:
        var job := SelectNext(limits, now);
        if job.None? {
          return;
        }
        var _ := ClaimJob(job.value, limits, now, fate(job.value.id));
      }
    }

    method HandleTaskResult(id: string, outcome: Outcome, now: int, w: Write)
      requires Valid()
      modifies store
      ensures Valid() && store.View() == Handled(old(store.View()), id, outcome, now, w)
    {
      hide EditList; hide Lookup; hide BuildIndex;
      match outcome {
        case Finished =>
        case Erred(error) =>
          var _ := store.UpdateIf(id, FailError(error), now, w);
        case Panicked =>
          var _ := store.UpdateIf(id, FailPanic, now, w);
        case TimedOut =>
          var _ := store.UpdateIf(id, FailTimeout, now, w);
      }
    }

    method ApplyReliability(scheduled: Job, guessed: JobErrorClass, digest: nat, now: int, w1: Write, w2: Write)
      requires Valid() && DistinctIds(store.jobs)
      modifies store, circuits
      ensures Valid()
      ensures View(Serving, now) == Concluded(old(View(Judging(scheduled), now)), guessed, digest, w1, w2)
    {
      hide DistinctIds; hide Judged; hide FollowedUp; hide JobStore.Valid; hide FairScheduler.Valid;
      var next := TellBreaker(scheduled, guessed, now);
      FollowUp(next, digest, now, w1, w2);
    }

    method FollowUp(next: Phase, digest: nat, now: int, w1: Write, w2: Write)
      requires Valid() && (next.Serving? || next.Clearing? || next.Attaching?)
      modifies store
      ensures Valid() && View(Serving, now) == FollowedUp(old(View(next, now)), digest, w1, w2)
    {
      hide JobStore.Valid; hide FairScheduler.Valid; hide Updated; hide RetryOf; hide Retries; hide FairScheduler.View;
      hide RunningJobs.View; hide CircuitBreakers.View;
      match next {
        case Clearing(id) =>
          WriteBack(id, Edit.ClearError, now, w1);
        case Attaching(job, error) =>
          WriteBack(job.id, Edit.AttachClass(error), now, w1);
          if Retries(job, error) {
            WriteBack(job.id, RetryOf(job, digest, now), now, w2);
          }
        case _ =>
      }
    }

    /** The first half: look the job up and tell its breaker; `next` is what is still to do. */
    method TellBreaker(scheduled: Job, guessed: JobErrorClass, now: int) returns (next: Phase)
      requires Valid() && DistinctIds(store.jobs)
      modifies circuits
      ensures Valid() && View(next, now) == Judged(old(View(Judging(scheduled), now)), scheduled, guessed)
      ensures next.Serving? || next.Clearing? || next.Attaching?
    {
      hide Lookup; hide BuildIndex; hide DistinctIds; hide Fail;
      var found := store.Get(scheduled.id);
      if found.None? {
        return Serving;
      }
      var job := found.value;
      if job.status.Succeeded? {
        circuits.RecordSuccess(ClassOf(job));
        return Clearing(job.id);
      }
      var error := JobErrorClassOf(job, guessed);
      if error.None? {
        circuits.ReleaseProbe(ClassOf(job));
        return Serving;
      }
      circuits.RecordFailure(ClassOf(job), error.value, now);
      return Attaching(job, error.value);
    }

    method WriteBack(id: string, e: Edit, now: int, w: Write)
      requires Valid()
      modifies store
      ensures Valid() && store.View() == Updated(old(store.View()), id, e, now, w)
    {
      var _ := store.UpdateIf(id, e, now, w);
    }

    method TakeIn(i: nat, outcome: Outcome, now: int, w: Write, guessed: JobErrorClass, digest: nat, w1: Write,
            w2: Write)
      requires Valid() && i < |tasks| && DistinctIds(store.jobs)
      modifies this`tasks, store, running, circuits
      ensures Valid()
      ensures View(Serving, now) == TakenIn(old(View(Serving, now)), i, outcome, w, guessed, digest, w1, w2)
    {
      var job := tasks[i];
      ghost var start := View(Serving, now);
      Join(i, outcome, now, w);
      assert View(Judging(job), now) == Joined(start, i, outcome, w, Judging(job));
      HandledKeepsIds(start.files, job.id, outcome, now, w);
      hide Concluded; hide Joined; hide JobStore.Valid; hide FairScheduler.Valid; hide DistinctIds;
      ApplyReliability(job, guessed, digest, now, w1, w2);
    }

    method Join(i: nat, outcome: Outcome, now: int, w: Write)
      requires Valid() && i < |tasks|
      modifies this`tasks, store, running
      ensures Valid()
      ensures forall before: Phase, after: Phase ::
                View(after, now) == Joined(old(View(before, now)), i, outcome, w, after)
    {
      var job := tasks[i];
      tasks := Without(tasks, i);
      running.Finished(job);
      HandleTaskResult(job.id, outcome, now, w);
    }

    method DrainForShutdown(outcomes: seq<Late>, now: int, fate: string -> Write)
      requires Valid()
      modifies this`tasks, store, running
      ensures Valid() && View(Draining, now) == Drained(old(View(Draining, now)), outcomes, fate)
    {
      hide Joined; hide JobStore.Valid; hide FairScheduler.Valid; hide MarkAll;
      ghost var start := View(Draining, now);
      var k := 0;
      assert outcomes[0..] == outcomes;
      while tasks != [] && k < |outcomes|
        invariant Valid() && 0 <= k <= |outcomes|
        invariant DrainedTasks(View(Draining, now), outcomes[k..]) == DrainedTasks(start, outcomes)
        decreases |outcomes| - k
      {
        assert outcomes[k..][1..] == outcomes[k + 1..];
        ghost var before := View(Draining, now);
        var i := outcomes[k].task % |tasks|;
        Join(i, outcomes[k].outcome, now, outcomes[k].w);
        assert View(Draining, now) == Joined(before, i, outcomes[k].outcome, outcomes[k].w, Draining);
        k := k + 1;
      }
      tasks := [];
      assert View(Draining, now) == DrainedTasks(start, outcomes);
      MarkRunning(NewestFirst(store.jobs), now, fate);
    }

    method MarkRunning(listed: seq<Job>, now: int, fate: string -> Write)
      requires Valid()
      modifies store
      ensures Valid() && store.View() == MarkAll(old(store.View()), listed, now, fate)
    {
      hide JobStore.Valid; hide Updated;
      assert listed[0..] == listed;
      for i := 0 to |listed|
        invariant Valid()
        invariant MarkAll(store.View(), listed[i..], now, fate) == MarkAll(old(store.View()), listed, now, fate)
      {
        assert listed[i..][1..] == listed[i + 1..];
        if listed[i].status.Running? {
          WriteBack(listed[i].id, Interrupt, now, fate(listed[i].id));
        }
      }
      assert listed[|listed|..] == [];
    }
  }

  /** The class an outcome leaves on the failed job. */
  function ClassLeft(outcome: Outcome, job: Job): Option<JobErrorClass> {
    match outcome
    case Erred(error) => Some(error)
    case TimedOut => Some(JobErrorClass.TimedOut)
    case _ => job.errorClass
  }

  /** A saved outcome other than a clean finish ends the job if it is still running, failed and
      with its class; any other listed job, and a job that was canceled or ended, stays as it was. */
  lemma {:induction false} OutcomeIsRecorded(f: Files, id: string, outcome: Outcome, now: int, i: nat)
    requires DistinctIds(f.mem) && i < |f.mem|
    ensures var g, job := Handled(f, id, outcome, now, Done), f.mem[i];
            && |g.mem| == |f.mem|
            && if job.id == id && job.status.Running? && !outcome.Finished?
               then g.mem[i] == job.(status := Failed, progress := 100, finishedAt := Some(now), updatedAt := now,
                                     errorClass := ClassLeft(outcome, job))
               else g.mem[i] == job
  {
    var p := Find(f.mem, id);
    assert f.mem[i].id == id ==> p == i;
  }

  /** What a body's report, once saved, leaves on the list: progress and heartbeats only of a
      running job; the results of a media download, and a scrape without its subscription,
      whatever the job's status; an end of its own only if it still runs. */
  lemma {:induction false} ReportIsRecorded(f: Files, id: string, e: Edit, now: int, i: nat)
    requires DistinctIds(f.mem) && i < |f.mem| && IsReport(e)
    ensures var g, job := Updated(f, id, e, now, Done), f.mem[i];
            && |g.mem| == |f.mem|
            && g.mem[i] ==
               if job.id != id then job
               else
                 match e
                 case Progress(amount) =>
                   if job.status.Running?
                   then job.(progress := amount, updatedAt := now,
                             startedAt := if job.startedAt.Some? then job.startedAt else Some(now))
                   else job
                 case Heartbeat => if job.status.Running? then job.(updatedAt := now) else job
                 case Record(reached) =>
                   job.(updatedAt := now, progress := if reached.Some? then reached.value else job.progress)
                 case Complete(succeeded) =>
                   if job.status.Running?
                   then job.(status := if succeeded then JobStatus.Succeeded else JobStatus.Failed, progress := 100,
                             finishedAt := Some(now), updatedAt := now)
                   else job.(updatedAt := now)
                 case _ => job.(status := JobStatus.Failed, progress := 100, finishedAt := Some(now), updatedAt := now)
  {
    var p := Find(f.mem, id);
    assert f.mem[i].id == id ==> p == i;
  }

  lemma {:induction false} HandledKeepsIds(f: Files, id: string, outcome: Outcome, now: int, w: Write)
    requires DistinctIds(f.mem)
    ensures DistinctIds(Handled(f, id, outcome, now, w).mem)
  {
    match outcome
    case Finished =>
    case Erred(error) => UpdatedKeepsIds(f, id, FailError(error), now, w);
    case Panicked => UpdatedKeepsIds(f, id, FailPanic, now, w);
    case TimedOut => UpdatedKeepsIds(f, id, FailTimeout, now, w);
  }

  lemma {:induction false} UpdatedKeepsIds(f: Files, id: string, e: Edit, now: int, w: Write)
    requires DistinctIds(f.mem)
    ensures DistinctIds(Updated(f, id, e, now, w).mem)
  {
    var i := Find(f.mem, id);
    if i < |f.mem| && EditJob(e, f.mem[i], now).Some? {
      EditKeepsIdentity(e, f.mem[i], now);
      hide EditJob;
    }
  }

  // -------------------------------------------------- the methods are runs

  lemma {:induction false} RunJoins(s: System, a: seq<Action>, b: seq<Action>)
    requires IsRun(s, a) && IsRun(Final(s, a), b)
    ensures IsRun(s, a + b) && Final(s, a + b) == Final(Final(s, a), b)
    decreases |a|
  {
    hide Step; hide Enabled;
    if a == [] {
      assert a + b == b;
    } else {
      RunJoins(Step(s, a[0]), a[1..], b);
      assert (a + b)[1..] == a[1..] + b;
    }
  }

  lemma {:induction false} OneStep(s: System, a: Action)
    requires Enabled(s, a)
    ensures IsRun(s, [a]) && Final(s, [a]) == Step(s, a)
  {
    hide Step; hide Enabled;
    assert [a][1..] == [];
    assert IsRun(Step(s, a), []) && Final(Step(s, a), []) == Step(s, a);
  }

  /** The dispatch loop is a run of selections and claims, so all that holds of runs holds of it. */
  lemma {:induction false} DispatchIsRun(s: System, limits: Limits, fate: string -> Write) returns (run: seq<Action>)
    requires SchedOk(s.sched) && s.phase.Serving?
    ensures IsRun(s, run) && Final(s, run) == Dispatched(s, limits, fate)
    decreases |s.sched.pending|
  {
    hide SchedOk; hide IsRun; hide Final; hide Selected; hide Claimed;
    SelectedShrinks(s, limits);
    var t := Selected(s, limits);
    assert Enabled(s, Action.Select(limits)) && Step(s, Action.Select(limits)) == t;
    OneStep(s, Action.Select(limits));
    run := [Action.Select(limits)];
    if t.phase.Claiming? {
      var w := fate(t.phase.job.id);
      var u := Claimed(t, t.phase.job, w);
      ClaimedServes(t, t.phase.job, w);
      assert Enabled(t, Action.Claim(w)) && Step(t, Action.Claim(w)) == u;
      OneStep(t, Action.Claim(w));
      RunJoins(s, run, [Action.Claim(w)]);
      var rest := DispatchIsRun(u, limits, fate);
      RunJoins(s, run + [Action.Claim(w)], rest);
      run := run + [Action.Claim(w)] + rest;
    }
  }

  lemma {:induction false} ClaimedServes(s: System, job: Job, w: Write)
    ensures Claimed(s, job, w).phase.Serving? && Claimed(s, job, w).sched == s.sched
  {
    hide EditList; hide Updated; hide Start; hide WithoutProbe;
  }

  /** When the dispatch loop ends, no group head anywhere may start. */
  lemma {:induction false} DispatchExhausts(s: System, limits: Limits, fate: string -> Write)
    requires SchedOk(s.sched) && s.phase.Serving?
    ensures var t := Dispatched(s, limits, fate);
            && SchedOk(t.sched) && t.phase.Serving?
            && NoHeadEligible(t.sched, Eligible(t.running, limits, t.circuits, t.now))
    decreases |s.sched.pending|
  {
    SelectedShrinks(s, limits);
    var t := Selected(s, limits);
    if t.phase.Serving? {
      StuckSelection(s, limits);
    } else {
      ClaimedServes(t, t.phase.job, fate(t.phase.job.id));
      DispatchExhausts(Claimed(t, t.phase.job, fate(t.phase.job.id)), limits, fate);
    }
    hide Selected; hide Claimed; hide SchedOk; hide NoHeadEligible; hide Eligible;
  }

  lemma {:induction false} StuckSelection(s: System, limits: Limits)
    requires SchedOk(s.sched) && s.phase.Serving? && Selected(s, limits).phase.Serving?
    ensures Selected(s, limits) == s && NoHeadEligible(s.sched, Eligible(s.running, limits, s.circuits, s.now))
  {
    PopKeepsSched(s.sched, Eligible(s.running, limits, s.circuits, s.now));
    hide PopFrom; hide SchedOk; hide NoHeadEligible; hide Eligible; hide Sched.Jobs;
  }

  /** Taking in an outcome is a run: the join, then whatever reliability has to do. */
  lemma {:induction false} ConcludedIsRun(s: System, guessed: JobErrorClass, digest: nat, w1: Write,
          w2: Write) returns (run: seq<Action>)
    requires s.phase.Judging?
    ensures IsRun(s, run) && Final(s, run) == Concluded(s, guessed, digest, w1, w2)
  {
    hide IsRun; hide Final; hide Judged;
    var t := Judged(s, s.phase.job, guessed);
    assert Enabled(s, JudgeJob(guessed)) && Step(s, JudgeJob(guessed)) == t;
    OneStep(s, JudgeJob(guessed));
    run := [JudgeJob(guessed)];
    if t.phase.Clearing? {
      OneStep(t, Action.ClearError(w1));
      RunJoins(s, run, [Action.ClearError(w1)]);
      run := run + [Action.ClearError(w1)];
    } else if t.phase.Attaching? {
      var rest := AttachedIsRun(t, digest, w1, w2);
      RunJoins(s, run, rest);
      run := run + rest;
    }
    hide Step; hide Enabled; hide Retries;
  }

  /** Taking an outcome in is the step that joins its task, and then what reliability does. */
  lemma {:induction false} TakenInIsRun(s: System, i: nat, outcome: Outcome, w: Write, guessed: JobErrorClass,
          digest: nat, w1: Write, w2: Write)
    returns (rest: seq<Action>)
    requires s.phase.Serving? && i < |s.tasks|
    ensures Enabled(s, Action.Join(i, outcome, w))
    ensures var t := Step(s, Action.Join(i, outcome, w));
            && t.phase == Judging(s.tasks[i])
            && IsRun(t, rest) && Final(t, rest) == Concluded(t, guessed, digest, w1, w2)
            && Final(t, rest) == TakenIn(s, i, outcome, w, guessed, digest, w1, w2)
  {
    var t := Step(s, Action.Join(i, outcome, w));
    assert t == Joined(s, i, outcome, w, Judging(s.tasks[i]));
    hide Step; hide Joined; hide Concluded; hide IsRun; hide Final;
    rest := ConcludedIsRun(t, guessed, digest, w1, w2);
  }

  lemma {:induction false} AttachedIsRun(t: System, digest: nat, w1: Write, w2: Write) returns (run: seq<Action>)
    requires t.phase.Attaching?
    ensures var u := ClassAttached(t, t.phase.failed, t.phase.error, w1);
            && IsRun(t, run)
            && Final(t, run)
               == if Retries(t.phase.failed, t.phase.error) then Retried(u, t.phase.failed, digest, w2) else u
  {
    hide IsRun; hide Final; hide Retries; hide Updated; hide RetryOf;
    var a, b := Action.AttachClass(w1), Action.Requeue(digest, w2);
    var u := Step(t, a);
    assert u == ClassAttached(t, t.phase.failed, t.phase.error, w1);
    OneStep(t, a);
    run := [a];
    if u.phase.Requeueing? {
      assert Step(u, b) == Retried(u, t.phase.failed, digest, w2);
      OneStep(u, b);
      RunJoins(t, run, [b]);
      run := run + [b];
    }
    hide Step; hide Enabled;
  }

  // ------------------------------------------------------------- the drain

  lemma {:induction false} DrainedTasksEnd(s: System, outcomes: seq<Late>)
    requires DistinctIds(s.files.mem)
    ensures DrainedTasks(s, outcomes).tasks == [] && DistinctIds(DrainedTasks(s, outcomes).files.mem)
    decreases |outcomes|
  {
    hide DistinctIds; hide Handled;
    if s.tasks != [] && outcomes != [] {
      var i := outcomes[0].task % |s.tasks|;
      HandledKeepsIds(s.files, s.tasks[i].id, outcomes[0].outcome, s.now, outcomes[0].w);
      DrainedTasksEnd(Joined(s, i, outcomes[0].outcome, outcomes[0].w, Draining), outcomes[1..]);
    }
  }

  /** One mark ends the listed job if it is running and leaves every other alone. */
  lemma {:induction false} MarkAt(f: Files, job: Job, now: int, i: nat)
    requires DistinctIds(f.mem) && i < |f.mem|
    ensures var g := Updated(f, job.id, Interrupt, now, Done);
            && |g.mem| == |f.mem| && DistinctIds(g.mem)
            && (f.mem[i].id != job.id ==> g.mem[i] == f.mem[i])
            && (f.mem[i].id == job.id ==> g.mem[i].status.Failed?)
  {
    UpdatedKeepsIds(f, job.id, Interrupt, now, Done);
    var p := Find(f.mem, job.id);
    assert p < |f.mem| ==> EditJob(Interrupt, f.mem[p], now).Some?;
  }

  lemma {:induction false} MarkAllAt(f: Files, jobs: seq<Job>, now: int, fate: string -> Write, i: nat)
    requires DistinctIds(f.mem) && i < |f.mem| && AllWritten(fate)
    requires forall x :: x in jobs && x.id == f.mem[i].id && x.status.Running? ==>
            f.mem[i].status.Running? || f.mem[i].status.Failed?
    ensures var g := MarkAll(f, jobs, now, fate);
            && |g.mem| == |f.mem|
            && (g.mem[i] == f.mem[i] || g.mem[i].status.Failed?)
            && ((exists x :: x in jobs && x.id == f.mem[i].id && x.status.Running?) ==> g.mem[i].status.Failed?)
            && (!(exists x :: x in jobs && x.id == f.mem[i].id && x.status.Running?) ==> g.mem[i] == f.mem[i])
    decreases |jobs|
  {
    hide Updated; hide DistinctIds;
    if jobs != [] {
      if jobs[0].status.Running? {
        MarkAt(f, jobs[0], now, i);
        MarkAllAt(Updated(f, jobs[0].id, Interrupt, now, fate(jobs[0].id)), jobs[1..], now, fate, i);
      } else {
        MarkAllAt(f, jobs[1..], now, fate, i);
      }
      assert forall x :: x in jobs <==> x == jobs[0] || x in jobs[1..];
    }
  }

  lemma {:induction false} NewestHasAll(jobs: seq<Job>)
    ensures forall x :: x in NewestFirst(jobs) <==> x in jobs
  {
    if jobs != [] {
      NewestHasAll(jobs[1..]);
      assert forall x :: x in jobs <==> x == jobs[0] || x in jobs[1..];
    }
  }

  lemma {:induction false} MarkAllLength(f: Files, jobs: seq<Job>, now: int, fate: string -> Write)
    ensures |MarkAll(f, jobs, now, fate).mem| == |f.mem|
    decreases |jobs|
  {
    hide EditJob;
    if jobs != [] {
      var g := if jobs[0].status.Running? then Updated(f, jobs[0].id, Interrupt, now, fate(jobs[0].id)) else f;
      MarkAllLength(g, jobs[1..], now, fate);
    }
  }

  /** A shutdown whose writes work leaves no task and no running job, whatever came in
      during the grace period; and what was not running when the marks began is untouched. */
  lemma {:induction false} DrainLeavesNothingRunning(s: System, outcomes: seq<Late>, fate: string -> Write)
    requires DistinctIds(s.files.mem) && AllWritten(fate)
    ensures var t := DrainedTasks(s, outcomes); var d := Drained(s, outcomes, fate);
            && d.tasks == [] && |d.files.mem| == |t.files.mem|
            && forall i :: 0 <= i < |t.files.mem| ==>
                 if t.files.mem[i].status.Running? then d.files.mem[i].status.Failed?
                 else d.files.mem[i] == t.files.mem[i]
  {
    var t := DrainedTasks(s, outcomes);
    var mem := t.files.mem;
    DrainedTasksEnd(s, outcomes);
    NewestHasAll(mem);
    MarkAllLength(t.files, NewestFirst(mem), t.now, fate);
    forall i | 0 <= i < |mem|
      ensures var d := Drained(s, outcomes, fate);
              if mem[i].status.Running? then d.files.mem[i].status.Failed? else d.files.mem[i] == mem[i]
    {
      OnlyItself(mem, i);
      MarkAllAt(t.files, NewestFirst(mem), t.now, fate, i);
    }
    hide MarkAll; hide DrainedTasks; hide NewestFirst; hide AllWritten; hide DistinctIds;
  }

  lemma {:induction false} OnlyItself(jobs: seq<Job>, i: nat)
    requires DistinctIds(jobs) && i < |jobs|
    ensures forall x :: x in jobs && x.id == jobs[i].id ==> x == jobs[i]
    ensures jobs[i] in jobs
  {
  }

  // ------------------------------------------------- the shutdown as a run

  /** The outcomes a run takes in while draining. */
  function Drains(run: seq<Action>): seq<(Outcome, Write)> {
    if run == [] then []
    else (if run[0].DrainJoin? then [(run[0].outcome, run[0].w)] else []) + Drains(run[1..])
  }

  function Came(outcomes: seq<Late>): seq<(Outcome, Write)> {
    seq(|outcomes|, i requires 0 <= i < |outcomes| => (outcomes[i].outcome, outcomes[i].w))
  }

  lemma {:induction false} DrainsSplit(a: seq<Action>, b: seq<Action>)
    ensures Drains(a + b) == Drains(a) + Drains(b)
    decreases |a|
  {
    if a == [] {
      assert a + b == b;
    } else {
      assert (a + b)[0] == a[0] && (a + b)[1..] == a[1..] + b;
      DrainsSplit(a[1..], b);
    }
  }

  lemma {:induction false} DrainStep(s: System, o: Late)
    requires s.phase.Draining? && s.tasks != []
    ensures var i := o.task % |s.tasks|;
            var a, t := DrainJoin(i, o.outcome, o.w), Joined(s, i, o.outcome, o.w, Draining);
            Enabled(s, a) && Step(s, a) == t && |t.tasks| == |s.tasks| - 1 && t.phase.Draining?
  {
    hide Handled; hide Finish;
  }

  lemma {:induction false} AbortStep(s: System)
    requires s.phase.Draining?
    ensures Enabled(s, Abort) && Step(s, Abort) == s.(tasks := [])
  {
  }

  function FirstOnes(outcomes: seq<Late>, n: nat): seq<Late> {
    if |outcomes| < n then outcomes else outcomes[..n]
  }

  lemma {:induction false} CameStep(outcomes: seq<Late>, n: nat)
    requires outcomes != [] && n > 0
    ensures Came(FirstOnes(outcomes, n))
            == [(outcomes[0].outcome, outcomes[0].w)] + Came(FirstOnes(outcomes[1..], n - 1))
  {
  }

  /** The grace period: every outcome that comes while there are tasks is taken in, in order. */
  lemma {:induction false} TasksDrainAsRun(s: System, outcomes: seq<Late>) returns (run: seq<Action>)
    requires s.phase.Draining?
    ensures IsRun(s, run) && Final(s, run) == DrainedTasks(s, outcomes)
    ensures Drains(run) == Came(FirstOnes(outcomes, |s.tasks|))
    decreases |outcomes|
  {
    hide Step; hide Enabled; hide Joined;
    if s.tasks == [] {
      run := [];
    } else if outcomes == [] {
      run := [Abort];
      AbortStep(s);
      OneStep(s, Abort);
      assert [Abort][1..] == [];
      hide IsRun; hide Final;
    } else {
      var i, o := outcomes[0].task % |s.tasks|, outcomes[0];
      var a, t := DrainJoin(i, o.outcome, o.w), Joined(s, i, o.outcome, o.w, Draining);
      DrainStep(s, o);
      hide IsRun; hide Final; hide Came; hide FirstOnes;
      OneStep(s, a);
      var rest := TasksDrainAsRun(t, outcomes[1..]);
      RunJoins(s, [a], rest);
      run := [a] + rest;
      assert run[1..] == rest;
      CameStep(outcomes, |s.tasks|);
    }
  }

  /** The marks, one after the other. */
  lemma {:induction false} MarksAreRun(s: System, fate: string -> Write) returns (run: seq<Action>)
    requires s.phase.Marking?
    ensures IsRun(s, run) && Drains(run) == []
    ensures Final(s, run) == s.(files := MarkAll(s.files, s.phase.listed, s.now, fate), phase := Marking([]))
    decreases |s.phase.listed|
  {
    var listed := s.phase.listed;
    if listed == [] {
      run := [];
      assert IsRun(s, []) && Final(s, []) == s;
    } else {
      var a := MarkNext(fate(listed[0].id));
      var t := Step(s, a);
      assert t == Marked(s, fate(listed[0].id)) && t.phase == Marking(listed[1..]) && t.now == s.now;
      hide Step; hide IsRun; hide Final; hide Updated;
      OneStep(s, a);
      var rest := MarksAreRun(t, fate);
      RunJoins(s, [a], rest);
      run := [a] + rest;
      assert run[1..] == rest;
    }
  }

  /** With the tasks gone: the marks, and the stop. */
  lemma {:induction false} MarkingIsRun(t: System, fate: string -> Write) returns (run: seq<Action>)
    requires t.phase.Draining? && t.tasks == []
    ensures IsRun(t, run) && Drains(run) == []
    ensures Final(t, run) == t.(files := MarkAll(t.files, NewestFirst(t.files.mem), t.now, fate), phase := Down)
  {
    assert Enabled(t, BeginMarks) && Step(t, BeginMarks) == t.(phase := Marking(NewestFirst(t.files.mem)));
    var u := Step(t, BeginMarks);
    var marks := MarksAreRun(u, fate);
    var v := Final(u, marks);
    StopIs(v);
    hide Step; hide Enabled; hide IsRun; hide Final; hide MarkAll; hide NewestFirst;
    OneStep(t, BeginMarks);
    OneStep(v, Stop);
    RunJoins(u, marks, [Stop]);
    RunJoins(t, [BeginMarks], marks + [Stop]);
    run := [BeginMarks] + (marks + [Stop]);
    DrainsSplit(marks, [Stop]);
    DrainsSplit([BeginMarks], marks + [Stop]);
    assert [Stop][1..] == [] && [BeginMarks][1..] == [];
  }

  lemma {:induction false} StopIs(v: System)
    requires v.phase == Marking([])
    ensures Enabled(v, Stop) && Step(v, Stop) == v.(phase := Down)
  {
  }

  /** An undisturbed shutdown is a run of the machine: it takes in the outcomes that come
      during the grace period, gives up the other tasks, marks, and stops. */
  lemma {:induction false} DrainIsRun(s: System, outcomes: seq<Late>, fate: string -> Write) returns (run: seq<Action>)
    requires s.phase.Draining?
    ensures IsRun(s, run) && Final(s, run) == Drained(s, outcomes, fate).(phase := Down)
    ensures Drains(run) == Came(FirstOnes(outcomes, |s.tasks|))
  {
    var drain := TasksDrainAsRun(s, outcomes);
    DrainedPhase(s, outcomes);
    hide Step; hide Enabled; hide IsRun; hide Final; hide DrainedTasks; hide MarkAll; hide NewestFirst; hide Drains;
    hide Came; hide FirstOnes;
    var marks := MarkingIsRun(DrainedTasks(s, outcomes), fate);
    RunJoins(s, drain, marks);
    run := drain + marks;
    DrainsSplit(drain, marks);
  }

  lemma {:induction false} DrainedPhase(s: System, outcomes: seq<Late>)
    requires s.phase.Draining?
    ensures DrainedTasks(s, outcomes).tasks == [] && DrainedTasks(s, outcomes).phase.Draining?
    decreases |outcomes|
  {
    if s.tasks != [] && outcomes != [] {
      var i := outcomes[0].task % |s.tasks|;
      DrainedPhase(Joined(s, i, outcomes[0].outcome, outcomes[0].w, Draining), outcomes[1..]);
    }
  }
}
