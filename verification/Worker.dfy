/** The worker loop of `src/jobs/worker.rs` with the calls of `src/jobs/queue.rs`
    around it, as a state machine. One action is one critical section: one store
    call, one scheduler call, or one outcome taken from the task set. */
module Worker {
  import opened Options
  import opened JobModel
  import opened Store
  import opened Scheduler
  import opened Running
  import opened Reliability
  import opened Recovery
  import opened Ledger

  /** Where the worker is: between two critical sections of one iteration it holds a job. */
  datatype Phase =
    | Recovering(todo: seq<Job>, seen: set<string>, interrupted: set<string>)
    | Serving
    | Claiming(job: Job, limits: Limits)             // selected, not yet claimed
    | Judging(job: Job)                              // joined, reliability still to apply
    | Clearing(id: string)                           // succeeded, old error still to clear
    | Attaching(failed: Job, error: JobErrorClass)   // failed, class still to attach
    | Requeueing(failed: Job)                        // failed, retry still to queue
    | Draining
    | Marking(listed: seq<Job>)                      // shutting down, old running jobs still to mark
    | Down

  /** `files.disk` survives a crash; `unsent` are the saved submissions whose wake-up has
      not been sent yet; `starts` and `kinds` are the run's history: how often each id
      was started, and the kind each id was submitted with. */
  datatype System = System(
    files: Files,
    sched: Sched,
    tasks: seq<Job>,
    running: Counters,
    circuits: Circuits,
    phase: Phase,
    now: int,
    starts: Starts,
    kinds: map<string, JobKind>,
    unsent: set<string>)

  datatype Outcome = Finished | Erred(error: JobErrorClass) | Panicked | TimedOut

  datatype Action =
    // calls from the API, at any moment
    | Submit(id: string, kind: JobKind, payload: Payload, priority: JobPriority, w: Write)
    | Sent(id: string)
    | QueueGone(id: string, w: Write)
    | CancelJob(id: string, w: Write)
    | SetPriority(id: string, priority: JobPriority, w: Write)
    | ClearJobs(w: Write, w2: Write)
    | CompactJobs(w: Write)
    | ArchiveJobs(retain: nat, cap: nat, w: Write, w2: Write)
    // a job's body, at any moment, even after its task was given up
    | Report(id: string, progress: Edit, w: Write)
    // the worker loop
    | Absorb(id: string)
    | Reconcile
    | Select(limits: Limits)
    | Claim(w: Write)
    | Join(i: nat, outcome: Outcome, w: Write)
    | JudgeJob(guessed: JobErrorClass)
    | ClearError(w: Write)
    | AttachClass(w: Write)
    | Requeue(digest: nat, w: Write)
    // start-up, shutdown, crash
    | RecoverNext(w: Write)
    | BeginShutdown
    | DrainJoin(i: nat, outcome: Outcome, w: Write)
    | Abort
    | BeginMarks
    | MarkNext(w: Write)
    | Stop
    | KillWorker
    | Crash
    | Tick(to: int)

  // -------------------------------------------------------------- the parts

  /** `submit_job_with_priority`. */
  function NewJob(id: string, kind: JobKind, payload: Payload, priority: JobPriority, now: int): Job {
    Job(id, kind, priority, 1, None, None, Queued, 0, payload, Some(KeyOf(kind, payload)), now, now, None, None)
  }

  /** What `update_running`, `complete_if_active`, the heartbeat and the saved results of a
      media download do to the list. */
  predicate IsReport(e: Edit) {
    e.Progress? || e.Heartbeat? || e.Record? || e.Complete? || e.FailMissing?
  }

  /** What `handle_task_result` does; a canceled job refuses the edit. */
  function Handled(f: Files, id: string, outcome: Outcome, now: int, w: Write): Files {
    match outcome
    case Finished => f
    case Erred(error) => Updated(f, id, FailError(error), now, w)
    case Panicked => Updated(f, id, FailPanic, now, w)
    case TimedOut => Updated(f, id, FailTimeout, now, w)
  }

  predicate IsDue(job: Job, now: int) {
    job.nextAttemptAt.None? || job.nextAttemptAt.value <= now
  }

  /** `queue_pending_job`: a job that is not due yet is left to its timer. */
  function QueuePending(sched: Sched, mem: seq<Job>, id: string, now: int): Sched {
    match Lookup(mem, id)
    case None => sched
    case Some(job) => if job.status.Queued? && IsDue(job, now) then PushTo(sched, job) else sched
  }

  /** The ids `reconcile_queued_jobs` finds, newest first. */
  function Dropped(jobs: seq<Job>, now: int): seq<string> {
    if jobs == [] then []
    else Dropped(jobs[1..], now) + if jobs[0].status.Queued? && IsDue(jobs[0], now) then [jobs[0].id] else []
  }

  function QueueAll(sched: Sched, mem: seq<Job>, ids: seq<string>, now: int): Sched
    decreases |ids|
  {
    if ids == [] then sched else QueueAll(QueuePending(sched, mem, ids[0], now), mem, ids[1..], now)
  }

  function WithoutProbe(circuits: Circuits, c: JobClass): Circuits {
    circuits.With(c, circuits.Of(c).(probe := false))
  }

  function Restart(disk: seq<Job>): Phase {
    Recovering(RecoveryOrder(disk), {}, InterruptedKeys(RecoveryOrder(disk)))
  }

  // --------------------------------------------------------------- the steps

  /** The worker is shutting down or gone. */
  predicate Ending(p: Phase) {
    p.Draining? || p.Marking? || p.Down?
  }

  predicate Working(p: Phase) {
    !p.Recovering? && !Ending(p)
  }

  predicate Enabled(s: System, a: Action) {
    match a
    case Submit(id, _, _, _, _) => !s.phase.Recovering? && id !in s.kinds
    case Sent(id) => id in s.unsent && !s.phase.Down?
    case QueueGone(id, _) => id in s.unsent && s.phase.Down?
    case CancelJob(_, _) => !s.phase.Recovering?
    case SetPriority(_, _, _) => !s.phase.Recovering?
    case ClearJobs(_, _) => !s.phase.Recovering?
    case CompactJobs(_) => !s.phase.Recovering?
    case ArchiveJobs(_, _, _, _) => !s.phase.Recovering?
    case Report(_, e, _) => !s.phase.Recovering? && IsReport(e)
    case Absorb(_) => s.phase.Serving?
    case Reconcile => s.phase.Serving? && s.sched.pending == {}
    case Select(_) => s.phase.Serving?
    case Claim(_) => s.phase.Claiming?
    case Join(i, _, _) => s.phase.Serving? && i < |s.tasks|
    case JudgeJob(_) => s.phase.Judging?
    case ClearError(_) => s.phase.Clearing?
    case AttachClass(_) => s.phase.Attaching?
    case Requeue(_, _) => s.phase.Requeueing?
    case RecoverNext(_) => s.phase.Recovering?
    case BeginShutdown => s.phase.Serving?
    case DrainJoin(i, _, _) => s.phase.Draining? && i < |s.tasks|
    case Abort => s.phase.Draining?
    case BeginMarks => s.phase.Draining? && s.tasks == []
    case MarkNext(_) => s.phase.Marking? && s.phase.listed != []
    case Stop => s.phase.Marking? && s.phase.listed == []
    case KillWorker => !s.phase.Recovering?
    case Crash => true
    case Tick(_) => true
  }

  /** Selection: the first admissible job in scheduling order, and the breakers after the asking. */
  function Selected(s: System, limits: Limits): (t: System)
    ensures t.starts == s.starts && t.kinds == s.kinds && t.files == s.files && t.tasks == s.tasks && t.now == s.now
  {
    var (popped, sched) := PopFrom(s.sched, Eligible(s.running, limits, s.circuits, s.now));
    match popped
    case None => s.(sched := sched)
    case Some(job) =>
      var c := ClassOf(job);
      s.(sched := sched, circuits := s.circuits.With(c, Ask(s.circuits.Of(c), s.now)), phase := Claiming(job, limits))
  }

  /** The claim: only a saved change from queued to running starts the job. */
  function Claimed(s: System, job: Job, w: Write): System {
    var edited := EditList(s.files.mem, job.id, Edit.Claim(job.priority), s.now);
    var files := Updated(s.files, job.id, Edit.Claim(job.priority), s.now, w);
    if edited.Some? && w.Done?
    then s.(files := files, phase := Serving, tasks := s.tasks + [job], running := Start(s.running, job),
            starts := s.starts[job.id := Count(s.starts, job.id) + 1])
    else s.(files := files, phase := Serving, circuits := WithoutProbe(s.circuits, ClassOf(job)))
  }

  function Joined(s: System, i: nat, outcome: Outcome, w: Write, next: Phase): (t: System)
    requires i < |s.tasks|
    ensures t.starts == s.starts && t.kinds == s.kinds && t.sched == s.sched && t.circuits == s.circuits
            && t.now == s.now
  {
    s.(tasks := Without(s.tasks, i), running := Finish(s.running, s.tasks[i]), phase := next,
       files := Handled(s.files, s.tasks[i].id, outcome, s.now, w))
  }

  /** The first half of `apply_reliability`: what the breaker is told. */
  function Judged(s: System, scheduled: Job, guessed: JobErrorClass): (t: System)
    ensures t.starts == s.starts && t.kinds == s.kinds && t.files == s.files && t.tasks == s.tasks && t.now == s.now
  {
    match Lookup(s.files.mem, scheduled.id)
    case None => s.(phase := Serving)
    case Some(job) =>
      var c := ClassOf(job);
      if job.status.Succeeded? then s.(circuits := s.circuits.With(c, CLOSED), phase := Clearing(job.id))
      else
        match JobErrorClassOf(job, guessed)
        case None => s.(circuits := WithoutProbe(s.circuits, c), phase := Serving)
        case Some(error) =>
          s.(circuits := s.circuits.With(c, Fail(s.circuits.Of(c), error, s.now)), phase := Attaching(job, error))
  }

  predicate Retries(job: Job, error: JobErrorClass) {
    job.kind.SupportsAutomaticRetry() && IsRetryable(error) && job.attempt < MAX_AUTO_ATTEMPTS
  }

  function RetryOf(job: Job, digest: nat, now: int): Edit {
    Edit.Requeue(job.attempt + 1, now + RetryDelay(job.attempt + 1, digest))
  }

  function ErrorCleared(s: System, id: string, w: Write): System {
    s.(files := Updated(s.files, id, Edit.ClearError, s.now, w), phase := Serving)
  }

  function ClassAttached(s: System, failed: Job, error: JobErrorClass, w: Write): System {
    s.(files := Updated(s.files, failed.id, Edit.AttachClass(error), s.now, w),
       phase := if Retries(failed, error) then Requeueing(failed) else Serving)
  }

  function Retried(s: System, failed: Job, digest: nat, w: Write): System {
    s.(files := Updated(s.files, failed.id, RetryOf(failed, digest, s.now), s.now, w), phase := Serving)
  }

  function Recovered(s: System, w: Write): (t: System)
    requires s.phase.Recovering?
    ensures t.starts == s.starts && t.kinds == s.kinds && t.sched == s.sched && t.tasks == s.tasks && t.now == s.now
  {
    var Recovering(todo, seen, interrupted) := s.phase;
    if todo == [] then s.(phase := Serving)
    else s.(files := Carry(s.files, todo[0], Judge(todo[0], seen, interrupted), s.now, w),
            phase := Recovering(todo[1..], SeenAfter(todo[0], seen, interrupted), interrupted))
  }

  /** One mark of `drain_for_shutdown`: the status is the one listed, the change unconditional. */
  function Marked(s: System, w: Write): (t: System)
    requires s.phase.Marking? && s.phase.listed != []
    ensures t.starts == s.starts && t.kinds == s.kinds && t.sched == s.sched && t.tasks == s.tasks && t.now == s.now
  {
    var job := s.phase.listed[0];
    s.(files := if job.status.Running? then Updated(s.files, job.id, Interrupt, s.now, w) else s.files,
       phase := Marking(s.phase.listed[1..]))
  }

  /** A submission: saved as a new job, it still has its wake-up to send. */
  function Submitted(s: System, job: Job, w: Write): System {
    s.(files := Inserted(s.files, job, w), kinds := s.kinds[job.id := job.kind],
       unsent := if Existing(s.files.mem, job).None? && w.Done? then s.unsent + {job.id} else s.unsent)
  }

  /** Nothing scheduled, nothing running, nothing remembered. */
  function Rested(files: Files, phase: Phase, now: int, starts: Starts, kinds: map<string, JobKind>): System {
    System(files, EMPTY_SCHED, [], NOTHING_RUNNING, ALL_CLOSED, phase, now, starts, kinds, {})
  }

  /** Everything volatile is lost; the list is reloaded. */
  function Crashed(s: System): (t: System)
    ensures t.starts == s.starts && t.kinds == s.kinds && t.now == s.now
  {
    var jobs := Truncated(s.files.disk);
    Rested(Files(jobs, jobs, s.files.archive), Restart(jobs), s.now, s.starts, s.kinds)
  }

  function Step(s: System, a: Action): System
    requires Enabled(s, a)
  {
    match a
    case Submit(id, kind, payload, priority, w) => Submitted(s, NewJob(id, kind, payload, priority, s.now), w)
    case Sent(id) => s.(unsent := s.unsent - {id})
    case QueueGone(id, w) => s.(files := Updated(s.files, id, QueueUnavailable, s.now, w), unsent := s.unsent - {id})
    case CancelJob(id, w) => s.(files := Updated(s.files, id, Cancel, s.now, w))
    case SetPriority(id, priority, w) => s.(files := Updated(s.files, id, Reprioritize(priority), s.now, w))
    case ClearJobs(w, w2) => s.(files := Cleared(s.files, w, w2))
    case CompactJobs(w) => s.(files := Committed(s.files, Truncated(s.files.mem), w))
    case ArchiveJobs(retain, cap, w, w2) => s.(files := Archived(s.files, retain, cap, w, w2))
    case Report(id, e, w) => s.(files := Updated(s.files, id, e, s.now, w))
    case Absorb(id) => s.(sched := QueuePending(s.sched, s.files.mem, id, s.now))
    case Reconcile => s.(sched := QueueAll(s.sched, s.files.mem, Dropped(s.files.mem, s.now), s.now))
    case Select(limits) => Selected(s, limits)
    case Claim(w) => Claimed(s, s.phase.job, w)
    case Join(i, outcome, w) => Joined(s, i, outcome, w, Judging(s.tasks[i]))
    case JudgeJob(guessed) => Judged(s, s.phase.job, guessed)
    case ClearError(w) => ErrorCleared(s, s.phase.id, w)
    case AttachClass(w) => ClassAttached(s, s.phase.failed, s.phase.error, w)
    case Requeue(digest, w) => Retried(s, s.phase.failed, digest, w)
    case RecoverNext(w) => Recovered(s, w)
    case BeginShutdown => s.(phase := Draining)
    case DrainJoin(i, outcome, w) => Joined(s, i, outcome, w, Draining)
    case Abort => s.(tasks := [])
    case BeginMarks => s.(phase := Marking(NewestFirst(s.files.mem)))
    case MarkNext(w) => Marked(s, w)
    case Stop => s.(phase := Down)
    case KillWorker => s.(tasks := [], phase := Down)
    case Crash => Crashed(s)
    case Tick(to) => s.(now := to)
  }

  /** Each action can be taken where the one before it led. */
  ghost predicate IsRun(s: System, run: seq<Action>)
    decreases |run|
  {
    run != [] ==> Enabled(s, run[0]) && IsRun(Step(s, run[0]), run[1..])
  }

  function Final(s: System, run: seq<Action>): System
    requires IsRun(s, run)
    decreases |run|
  {
    if run == [] then s else Final(Step(s, run[0]), run[1..])
  }

  /** The id a step starts a task for, if it does. */
  function StartedBy(s: System, a: Action): Option<string>
    requires Enabled(s, a)
  {
    if a.Claim? && |Step(s, a).tasks| > |s.tasks| then Some(s.phase.job.id) else None
  }

  /** How many tasks a run starts for this id. */
  function StartsIn(s: System, run: seq<Action>, id: string): nat
    requires IsRun(s, run)
    decreases |run|
  {
    if run == [] then 0
    else (if StartedBy(s, run[0]) == Some(id) then 1 else 0) + StartsIn(Step(s, run[0]), run[1..], id)
  }

  /** The program starting on these files. */
  function Boot(disk: seq<Job>, archive: seq<Job>, kinds: map<string, JobKind>, now: int): System {
    Crashed(Rested(Files([], disk, archive), Down, now, map[], kinds))
  }
}
