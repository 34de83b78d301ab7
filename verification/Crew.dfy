/** What the worker's volatile state always looks like: who is running, who is
    scheduled, and what the counters and the breakers say about them. */
module Crew {
  import opened Options
  import opened JobModel
  import opened Store
  import opened Scheduler
  import opened Running
  import opened Reliability
  import opened Recovery
  import opened Ledger
  import opened Worker
  import opened Bounded

  ghost predicate Known(job: Job, kinds: map<string, JobKind>) {
    job.id in kinds && kinds[job.id] == job.kind
  }

  /** No running task's job is queued on the list. */
  ghost predicate NotQueued(tasks: seq<Job>, mem: seq<Job>) {
    forall t, j :: t in tasks && j in mem && j.id == t.id ==> !j.status.Queued?
  }

  /** The job in the worker's hand is neither scheduled nor running. */
  ghost predicate Outside(job: Job, s: System) {
    job.id !in s.sched.pending && forall t :: t in s.tasks ==> t.id != job.id
  }

  function InHand(p: Phase): Option<Job> {
    match p
    case Claiming(job, _) => Some(job)
    case Judging(job) => Some(job)
    case Attaching(job, _) => Some(job)
    case Requeueing(job) => Some(job)
    case _ => None
  }

  ghost predicate SchedInv(sched: Sched, kinds: map<string, JobKind>) {
    && SchedOk(sched)
    && (forall j :: j in sched.Jobs() ==> Known(j, kinds))
    && (forall id :: id in sched.pending ==> id in kinds)
  }

  /** Distinct tasks, none of them scheduled, none of them queued on the list. */
  ghost predicate TasksInv(tasks: seq<Job>, pending: set<string>, mem: seq<Job>, kinds: map<string, JobKind>) {
    && DistinctIds(tasks)
    && (forall t :: t in tasks ==> Known(t, kinds) && t.id !in pending)
    && NotQueued(tasks, mem)
  }

  /** The counters are the tasks', and the tasks exclude each other; after a drain the
      counters are no longer used. */
  ghost predicate CountInv(s: System) {
    && Exclusive(s.tasks)
    && (!Ending(s.phase) ==> Reflects(s.running, s.tasks))
    && (s.phase.Claiming? ==> CanStart(s.running, s.phase.job, s.phase.limits))
  }

  ghost predicate HandInv(s: System) {
    InHand(s.phase).Some? ==> Known(InHand(s.phase).value, s.kinds) && Outside(InHand(s.phase).value, s)
  }

  ghost predicate CrewInv(s: System) {
    SchedInv(s.sched, s.kinds) && TasksInv(s.tasks, s.sched.pending, s.files.mem, s.kinds) && CountInv(s) && HandInv(s)
  }

  lemma {:induction false} TameTasks(tasks: seq<Job>, after: seq<Job>, before: seq<Job>, kinds: map<string, JobKind>)
    requires NotQueued(tasks, before) && Tame(after, before, kinds.Keys) && forall t :: t in tasks ==> Known(t, kinds)
    ensures NotQueued(tasks, after)
  {
    forall t, j | t in tasks && j in after && j.id == t.id ensures !j.status.Queued? {
      assert j.id in kinds.Keys;
      assert Was(j, before);
    }
  }

  predicate SameInHand(p: Phase, q: Phase) {
    InHand(p).Some? && InHand(q).Some? && InHand(p).value.id == InHand(q).value.id
      && InHand(p).value.kind == InHand(q).value.kind
  }

  /** A step that leaves the scheduler, the tasks and the counters alone. */
  lemma {:induction false} BystanderCrew(s: System, t: System)
    requires CrewInv(s) && Tame(t.files.mem, s.files.mem, s.kinds.Keys)
    requires t.sched == s.sched && t.tasks == s.tasks && t.running == s.running && t.kinds == s.kinds
    requires t.phase == s.phase || InHand(t.phase).None? || SameInHand(t.phase, s.phase)
    requires t.phase.Claiming? ==> t.phase == s.phase
    requires Ending(s.phase) ==> Ending(t.phase)
    ensures CrewInv(t)
  {
    TameKeepsTasks(s.tasks, s.sched.pending, t.files.mem, s.files.mem, s.kinds);
    hide Tame; hide Exclusive; hide Reflects; hide CanStart; hide SchedInv; hide TasksInv;
  }

  lemma {:induction false} MoreKindsCrew(s: System, id: string, kind: JobKind)
    requires CrewInv(s) && id !in s.kinds
    ensures CrewInv(s.(kinds := s.kinds[id := kind]))
  {
    hide Exclusive; hide Reflects; hide CanStart; hide SchedOk; hide DistinctIds; hide NotQueued; hide Sched.Jobs;
  }

  lemma {:induction false} SubmittedCrew(s: System, id: string, kind: JobKind, payload: Payload,
          priority: JobPriority, w: Write)
    requires CrewInv(s) && LedgerInv(s) && id !in s.kinds && !s.phase.Recovering?
    ensures CrewInv(Step(s, Submit(id, kind, payload, priority, w)))
  {
    var job := NewJob(id, kind, payload, priority, s.now);
    InsertIsCalm(s.files, job, w, s.starts, s.kinds);
    var t := s.(files := Inserted(s.files, job, w));
    BystanderCrew(s, t);
    MoreKindsCrew(t, id, kind);
    hide CrewInv; hide LedgerInv; hide Tame; hide Inserted; hide NewJob;
  }

  // ------------------------------------------------------------ scheduling

  lemma {:induction false} OneMoreKnown(before: set<Job>, after: set<Job>, job: Job, kinds: map<string, JobKind>)
    requires after == (set j | j in before && j.id != job.id) + {job}
    requires Known(job, kinds) && forall j :: j in before ==> Known(j, kinds)
    ensures job.id in kinds && forall j :: j in after ==> Known(j, kinds)
  {
  }

  lemma {:induction false} PushedSched(sched: Sched, job: Job, kinds: map<string, JobKind>)
    requires SchedInv(sched, kinds) && Known(job, kinds)
    ensures SchedInv(PushTo(sched, job), kinds) && PushTo(sched, job).pending == sched.pending + {job.id}
  {
    hide PushTo; hide SchedOk; hide Sched.Jobs; hide Known;
    PushKeepsSched(sched, job);
    OneMoreKnown(sched.Jobs(), PushTo(sched, job).Jobs(), job, kinds);
  }

  lemma {:induction false} PushedTasks(tasks: seq<Job>, pending: set<string>, mem: seq<Job>,
          kinds: map<string, JobKind>, job: Job)
    requires TasksInv(tasks, pending, mem, kinds) && job in mem && job.status.Queued?
    ensures TasksInv(tasks, pending + {job.id}, mem, kinds)
  {
    hide DistinctIds; hide Known;
  }

  lemma {:induction false} ListedIsKnown(mem: seq<Job>, job: Job, starts: Starts, kinds: map<string, JobKind>)
    requires ListOk(mem, starts, kinds) && job in mem
    ensures Known(job, kinds)
  {
    assert JobOk(job, starts, kinds);
  }

  ghost predicate Pushable(mem: seq<Job>, id: string, now: int) {
    Lookup(mem, id).Some? && Lookup(mem, id).value.status.Queued? && IsDue(Lookup(mem, id).value, now)
  }

  /** Pushing a queued listed job: it is nobody's task. */
  lemma {:induction false} PendingCrew(s: System, id: string)
    requires CrewInv(s) && LedgerInv(s) && s.phase.Serving?
    ensures CrewInv(s.(sched := QueuePending(s.sched, s.files.mem, id, s.now)))
    ensures QueuePending(s.sched, s.files.mem, id, s.now).pending
            == s.sched.pending + if Pushable(s.files.mem, id, s.now) then {id} else {}
  {
    if Pushable(s.files.mem, id, s.now) {
      var job := Lookup(s.files.mem, id).value;
      LookupIsListed(s.files.mem, id);
      ListedIsKnown(s.files.mem, job, s.starts, s.kinds);
      PushedSched(s.sched, job, s.kinds);
      PushedTasks(s.tasks, s.sched.pending, s.files.mem, s.kinds, job);
    }
    hide Lookup; hide LedgerInv; hide PushTo; hide SchedInv; hide TasksInv; hide Exclusive; hide Reflects;
    hide CanStart; hide Known; hide IsDue;
  }

  lemma {:induction false} OneLessKnown(before: set<Job>, after: set<Job>, job: Job, kinds: map<string, JobKind>)
    requires job in before && after == before - {job} && forall j :: j in before ==> Known(j, kinds)
    ensures Known(job, kinds) && forall j :: j in after ==> Known(j, kinds)
  {
  }

  lemma {:induction false} PoppedSched(sched: Sched, eligible: Job -> bool, kinds: map<string, JobKind>)
    requires SchedInv(sched, kinds)
    ensures var popped, rest := PopFrom(sched, eligible).0, PopFrom(sched, eligible).1;
            && SchedInv(rest, kinds) && rest.pending <= sched.pending
            && (popped.Some? ==>
               eligible(popped.value) && Known(popped.value, kinds) && popped.value.id in sched.pending
                                 && popped.value.id !in rest.pending)
  {
    hide PopFrom; hide SchedOk; hide Sched.Jobs; hide Known; hide NoHeadEligible;
    PopKeepsSched(sched, eligible);
    var popped, rest := PopFrom(sched, eligible).0, PopFrom(sched, eligible).1;
    if popped.Some? {
      OneLessKnown(sched.Jobs(), rest.Jobs(), popped.value, kinds);
    }
  }

  lemma {:induction false} FewerPending(tasks: seq<Job>, pending: set<string>, fewer: set<string>, mem: seq<Job>,
          kinds: map<string, JobKind>)
    requires TasksInv(tasks, pending, mem, kinds) && fewer <= pending
    ensures TasksInv(tasks, fewer, mem, kinds) && forall t :: t in tasks ==> t.id !in pending
  {
  }

  lemma {:induction false} SelectedCrew(s: System, limits: Limits)
    requires CrewInv(s) && s.phase.Serving?
    ensures CrewInv(Selected(s, limits))
  {
    var eligible := Eligible(s.running, limits, s.circuits, s.now);
    PoppedSched(s.sched, eligible, s.kinds);
    FewerPending(s.tasks, s.sched.pending, PopFrom(s.sched, eligible).1.pending, s.files.mem, s.kinds);
    hide PopFrom; hide SchedInv; hide TasksInv; hide Exclusive; hide Reflects; hide CanStart; hide Ask; hide Allows;
    hide Known; hide Circuits.With; hide Circuits.Of;
  }

  lemma {:induction false} StartedTasks(tasks: seq<Job>, pending: set<string>, mem: seq<Job>,
          kinds: map<string, JobKind>, job: Job)
    requires TasksInv(tasks, pending, mem, kinds) && Known(job, kinds) && job.id !in pending
    requires forall t :: t in tasks ==> t.id != job.id
    requires forall j :: j in mem && j.id == job.id ==> !j.status.Queued?
    ensures TasksInv(tasks + [job], pending, mem, kinds)
  {
    hide Known;
    assert forall t :: t in tasks + [job] <==> t in tasks || t == job;
  }

  lemma {:induction false} TameKeepsTasks(tasks: seq<Job>, pending: set<string>, after: seq<Job>, before: seq<Job>,
          kinds: map<string, JobKind>)
    requires TasksInv(tasks, pending, before, kinds) && Tame(after, before, kinds.Keys)
    ensures TasksInv(tasks, pending, after, kinds)
  {
    TameTasks(tasks, after, before, kinds);
  }

  lemma {:induction false} ClaimedCrew(s: System, job: Job, limits: Limits, w: Write)
    requires CrewInv(s) && LedgerInv(s) && s.phase == Claiming(job, limits)
    ensures CrewInv(Claimed(s, job, w))
  {
    var e := Edit.Claim(job.priority);
    var mem := Updated(s.files, job.id, e, s.now, w).mem;
    PlainUpdate(s.files, job.id, e, s.now, w, s.starts, s.kinds);
    TameKeepsTasks(s.tasks, s.sched.pending, mem, s.files.mem, s.kinds);
    if EditList(s.files.mem, job.id, e, s.now).Some? && w.Done? {
      ClaimedIsRunning(s.files.mem, job.id, job.priority, s.now);
      StartReflects(s.running, s.tasks, job);
      StartKeepsExclusive(s.running, s.tasks, job, limits);
      StartedTasks(s.tasks, s.sched.pending, mem, s.kinds, job);
    }
    hide EditList; hide SchedInv; hide TasksInv; hide Exclusive; hide Reflects; hide CanStart; hide Tame;
    hide WithoutProbe;
    hide Start; hide Count; hide LedgerInv; hide CountClass; hide Known; hide Updated;
  }

  lemma {:induction false} ClaimedIsRunning(jobs: seq<Job>, id: string, p: JobPriority, now: int)
    requires DistinctIds(jobs) && EditList(jobs, id, Edit.Claim(p), now).Some?
    ensures forall j :: j in EditList(jobs, id, Edit.Claim(p), now).value && j.id == id ==> j.status.Running?
  {
  }

  // -------------------------------------------------------------- finishing

  lemma {:induction false} WithoutIs(tasks: seq<Job>, i: nat)
    requires DistinctIds(tasks) && i < |tasks|
    ensures DistinctIds(Without(tasks, i))
    ensures forall t :: t in Without(tasks, i) ==> t in tasks && t.id != tasks[i].id
  {
    var rest := Without(tasks, i);
    forall k | 0 <= k < |rest| ensures rest[k] in tasks && rest[k].id != tasks[i].id {
      assert rest[k] == tasks[if k < i then k else k + 1];
    }
  }

  lemma {:induction false} JoinedCrew(s: System, i: nat, outcome: Outcome, w: Write, next: Phase)
    requires CrewInv(s) && LedgerInv(s) && i < |s.tasks|
    requires (next == Judging(s.tasks[i]) && s.phase.Serving?) || (next == Draining && s.phase.Draining?)
    ensures CrewInv(Joined(s, i, outcome, w, next))
  {
    var t := Joined(s, i, outcome, w, next);
    HandledIsCalm(s.files, s.tasks[i].id, outcome, s.now, w, s.starts, s.kinds);
    TameTasks(s.tasks, t.files.mem, s.files.mem, s.kinds);
    WithoutIs(s.tasks, i);
    FinishKeepsExclusive(s.tasks, i);
    if s.phase.Serving? {
      FinishReflects(s.running, s.tasks, i);
    }
    assert s.tasks[i] in s.tasks;
    hide Handled; hide SchedOk; hide Sched.Jobs; hide Exclusive; hide Reflects; hide CanStart; hide Tame; hide Finish;
    hide LedgerInv; hide Without; hide DistinctIds;
  }

  lemma {:induction false} JudgedCrew(s: System, guessed: JobErrorClass)
    requires CrewInv(s) && LedgerInv(s) && s.phase.Judging?
    ensures CrewInv(Judged(s, s.phase.job, guessed))
  {
    var t := Judged(s, s.phase.job, guessed);
    StillIsCalm(s.files, s.starts, s.kinds);
    if Lookup(s.files.mem, s.phase.job.id).Some? {
      var job := Lookup(s.files.mem, s.phase.job.id).value;
      LookupIsListed(s.files.mem, s.phase.job.id);
      assert JobOk(job, s.starts, s.kinds);
      assert job.kind == s.phase.job.kind;
    }
    hide Lookup; hide CrewInv; hide LedgerInv; hide JobOk; hide Tame; hide Calm;
    assert Known(s.phase.job, s.kinds) by { HandIs(s); }
    BystanderCrew(s, t);
  }

  lemma {:induction false} HandIs(s: System)
    requires CrewInv(s) && InHand(s.phase).Some?
    ensures Known(InHand(s.phase).value, s.kinds) && Outside(InHand(s.phase).value, s)
  {
  }

  /** Only the job in hand wakes up, and it is nobody's task. */
  lemma {:induction false} RequeuedCrew(s: System, digest: nat, w: Write)
    requires CrewInv(s) && LedgerInv(s) && s.phase.Requeueing?
    ensures CrewInv(Step(s, Action.Requeue(digest, w)))
  {
    var e := RetryOf(s.phase.failed, digest, s.now);
    RetriedTasks(s.tasks, s.sched.pending, s.files, s.kinds, s.phase.failed.id, e, s.now, w);
    assert Step(s, Action.Requeue(digest, w))
        == s.(files := Updated(s.files, s.phase.failed.id, e, s.now, w), phase := Serving);
    hide Step; hide Enabled;
    hide Updated; hide SchedInv; hide TasksInv; hide Exclusive; hide Reflects; hide CanStart; hide LedgerInv;
    hide RetryOf; hide Known;
  }

  lemma {:induction false} RetriedTasks(tasks: seq<Job>, pending: set<string>, f: Files, kinds: map<string, JobKind>,
          id: string, e: Edit, now: int, w: Write)
    requires TasksInv(tasks, pending, f.mem, kinds) && forall t :: t in tasks ==> t.id != id
    ensures TasksInv(tasks, pending, Updated(f, id, e, now, w).mem, kinds)
  {
    var mem := Updated(f, id, e, now, w).mem;
    forall x, j | x in tasks && j in mem && j.id == x.id ensures !j.status.Queued? {
      OthersUntouched(f, id, e, now, w, j);
    }
    hide Updated; hide Known; hide DistinctIds;
  }

  lemma {:induction false} CrashedCrew(s: System)
    ensures CrewInv(Crashed(s))
  {
    EmptyIsOk();
    NothingReflects();
    hide Truncated; hide RecoveryOrder; hide InterruptedKeys; hide SchedOk; hide Reflects; hide Held;
  }

  lemma {:induction false} EmptyIsOk()
    ensures SchedOk(EMPTY_SCHED) && EMPTY_SCHED.Jobs() == {}
  {
  }

  lemma {:induction false} NothingReflects()
    ensures Reflects(NOTHING_RUNNING, [])
  {
  }

  lemma {:induction false} RecoveredCrew(s: System, w: Write)
    requires CrewInv(s) && LedgerInv(s) && s.phase.Recovering?
    ensures CrewInv(Recovered(s, w))
  {
    StillIsCalm(s.files, s.starts, s.kinds);
    var Recovering(todo, seen, interrupted) := s.phase;
    if todo != [] && Judge(todo[0], seen, interrupted).Mark? {
      PlainUpdate(s.files, todo[0].id, Judge(todo[0], seen, interrupted).edit, s.now, w, s.starts, s.kinds);
    }
    hide CrewInv; hide LedgerInv; hide Tame; hide SeenAfter; hide Updated; hide FilesOk;
    BystanderCrew(s, Recovered(s, w));
  }

  lemma {:induction false} ReconciledCrew(s: System, ids: seq<string>)
    requires CrewInv(s) && LedgerInv(s) && s.phase.Serving?
    ensures CrewInv(s.(sched := QueueAll(s.sched, s.files.mem, ids, s.now)))
    decreases |ids|
  {
    hide CrewInv; hide FilesOk; hide StartsOk; hide QueuePending; hide PhaseFits; hide Lookup;
    if ids != [] {
      PendingCrew(s, ids[0]);
      ReconciledCrew(s.(sched := QueuePending(s.sched, s.files.mem, ids[0], s.now)), ids[1..]);
    }
  }

  lemma {:induction false} MarkedCrew(s: System, w: Write)
    requires CrewInv(s) && LedgerInv(s) && s.phase.Marking? && s.phase.listed != []
    ensures CrewInv(Marked(s, w))
  {
    MarkedIsCalm(s, w);
    hide CrewInv; hide FilesOk; hide StartsOk; hide Tame; hide Updated;
    BystanderCrew(s, Marked(s, w));
  }

  lemma {:induction false} KilledCrew(s: System)
    requires CrewInv(s)
    ensures CrewInv(s.(tasks := [], phase := Down))
  {
    hide SchedOk; hide Sched.Jobs; hide Reflects; hide CanStart;
  }

  lemma {:induction false} AbortedCrew(s: System)
    requires CrewInv(s) && s.phase.Draining?
    ensures CrewInv(s.(tasks := []))
  {
    hide SchedOk; hide Sched.Jobs; hide Reflects; hide CanStart;
  }

  lemma {:induction false} CrewStep(s: System, a: Action)
    requires CrewInv(s) && LedgerInv(s) && Enabled(s, a)
    ensures CrewInv(Step(s, a))
  {
    hide CrewInv; hide FilesOk; hide StartsOk; hide PhaseFits; hide Calm; hide Tame; hide Updated; hide Cleared;
    hide Archived; hide Inserted; hide Handled;
    hide Truncated; hide Committed; hide PopFrom; hide QueueAll; hide QueuePending; hide Finish; hide Without;
    hide Start;
    hide Judged; hide Claimed; hide Recovered; hide Crashed; hide Selected; hide Joined; hide Lookup; hide Dropped;
    hide RetryOf;
    var t := Step(s, a);
    if FilesOnly(a) {
      FilesOnlyIsCalm(s, a);
      CalmIsTame(t.files, s.files, s.starts, s.kinds);
      BystanderCrew(s, t);
    } else {
      StillIsCalm(s.files, s.starts, s.kinds);
      CalmIsTame(s.files, s.files, s.starts, s.kinds);
      match a
      case Submit(id, kind, payload, priority, w) => SubmittedCrew(s, id, kind, payload, priority, w);
      case Absorb(id) => PendingCrew(s, id);
      case Reconcile => ReconciledCrew(s, Dropped(s.files.mem, s.now));
      case Select(limits) => SelectedCrew(s, limits);
      case Claim(w) => ClaimedCrew(s, s.phase.job, s.phase.limits, w);
      case Join(i, outcome, w) => JoinedCrew(s, i, outcome, w, Judging(s.tasks[i]));
      case DrainJoin(i, outcome, w) => JoinedCrew(s, i, outcome, w, Draining);
      case JudgeJob(guessed) => JudgedCrew(s, guessed);
      case ClearError(w) =>
        PlainUpdate(s.files, s.phase.id, Edit.ClearError, s.now, w, s.starts, s.kinds);
        CalmIsTame(t.files, s.files, s.starts, s.kinds);
        BystanderCrew(s, t);
      case AttachClass(w) =>
        PlainUpdate(s.files, s.phase.failed.id, Edit.AttachClass(s.phase.error), s.now, w, s.starts, s.kinds);
        CalmIsTame(t.files, s.files, s.starts, s.kinds);
        BystanderCrew(s, t);
      case Requeue(digest, w) => RequeuedCrew(s, digest, w);
      case RecoverNext(w) => RecoveredCrew(s, w);
      case MarkNext(w) => MarkedCrew(s, w);
      case QueueGone(id, w) =>
        PlainUpdate(s.files, id, QueueUnavailable, s.now, w, s.starts, s.kinds);
        CalmIsTame(t.files, s.files, s.starts, s.kinds);
        BystanderCrew(s, t);
      case Sent(_) => BystanderCrew(s, t);
      case BeginMarks => BystanderCrew(s, t);
      case KillWorker => KilledCrew(s);
      case Abort => AbortedCrew(s);
      case Crash => CrashedCrew(s);
      case BeginShutdown => BystanderCrew(s, t);
      case Stop => BystanderCrew(s, t);
      case Tick(_) => BystanderCrew(s, t);
    }
  }

  lemma {:induction false} CalmIsTame(g: Files, f: Files, starts: Starts, kinds: map<string, JobKind>)
    requires Calm(g, f, starts, kinds)
    ensures Tame(g.mem, f.mem, kinds.Keys)
  {
  }

  // --------------------------------------------------------------- the runs

  lemma {:induction false} BootCrew(disk: seq<Job>, archive: seq<Job>, kinds: map<string, JobKind>, now: int)
    ensures CrewInv(Boot(disk, archive, kinds, now))
  {
    hide CrewInv; hide Crashed;
    CrashedCrew(Rested(Files([], disk, archive), Down, now, map[], kinds));
  }

  lemma {:induction false} RunKeepsCrew(s: System, run: seq<Action>)
    requires CrewInv(s) && LedgerInv(s) && IsRun(s, run)
    ensures CrewInv(Final(s, run)) && LedgerInv(Final(s, run))
    decreases |run|
  {
    hide LedgerInv; hide CrewInv; hide Step; hide Enabled;
    if run != [] {
      LedgerStep(s, run[0]);
      CrewStep(s, run[0]);
      RunKeepsCrew(Step(s, run[0]), run[1..]);
    }
  }

  /** In every reachable state: a scheduler whose ids are held once each, distinct tasks
      that are not scheduled and not queued, counters that are the tasks' own, and tasks
      that neither share a subscription nor run beside a bulk scrape they must not. */
  lemma {:induction false} WorkerInvariant(disk: seq<Job>, archive: seq<Job>, kinds: map<string, JobKind>, now: int,
          run: seq<Action>)
    requires ListOk(disk, map[], kinds) && IsRun(Boot(disk, archive, kinds, now), run)
    ensures var s := Final(Boot(disk, archive, kinds, now), run);
            && SchedOk(s.sched) && DistinctIds(s.tasks)
            && (forall t :: t in s.tasks ==> t.id !in s.sched.pending)
            && NotQueued(s.tasks, s.files.mem)
            && Exclusive(s.tasks) && (!Ending(s.phase) ==> Reflects(s.running, s.tasks))
  {
    BootLedger(disk, archive, kinds, now);
    BootCrew(disk, archive, kinds, now);
    RunKeepsCrew(Boot(disk, archive, kinds, now), run);
    hide Boot; hide Final; hide IsRun; hide SchedOk; hide NotQueued; hide Exclusive; hide Reflects; hide ListOk;
    hide CanStart;
  }

  /** In every reachable state, manual transfers apart: no two tasks work for the same
      subscription, and none works for one beside a scrape of all subscriptions. */
  lemma {:induction false} TasksKeepApart(disk: seq<Job>, archive: seq<Job>, kinds: map<string, JobKind>, now: int,
          run: seq<Action>)
    requires ListOk(disk, map[], kinds) && IsRun(Boot(disk, archive, kinds, now), run)
    ensures var tasks := Final(Boot(disk, archive, kinds, now), run).tasks;
            forall i, j ::
              0 <= i < |tasks| && 0 <= j < |tasks| && i != j
              && !tasks[i].kind.ManualTransfer? && !tasks[j].kind.ManualTransfer? ==>
                && (tasks[i].payload.subscription.Some? ==>
                   tasks[i].payload.subscription != tasks[j].payload.subscription)
                && (tasks[i].kind.MetadataScrape? && tasks[i].payload.subscription.None? ==>
                      tasks[j].payload.subscription.None? && !tasks[j].kind.MetadataScrape?)
  {
    WorkerInvariant(disk, archive, kinds, now, run);
    hide Boot; hide Final; hide IsRun; hide Exclusive; hide ListOk; hide SchedOk; hide NotQueued; hide Reflects;
    ExclusiveIff(Final(Boot(disk, archive, kinds, now), run).tasks);
  }

  /** A start respects the limits it was selected under and the tasks already running: there
      was room for its kind, no scrape of all subscriptions ran, and nobody worked for its
      subscription, or for any if it is itself such a scrape. */
  lemma {:induction false} StartRespectsLimits(s: System, w: Write)
    requires CrewInv(s) && s.phase.Claiming? && StartedBy(s, Action.Claim(w)).Some?
    ensures var job := s.phase.job;
            && Step(s, Action.Claim(w)).tasks == s.tasks + [job]
            && HasRoomFor(s.tasks, job.kind, s.phase.limits)
            && (forall x :: x in s.tasks && x.kind.MetadataScrape? ==> x.payload.subscription.Some?)
            && (forall x :: x in s.tasks && !x.kind.ManualTransfer? && x.payload.subscription.Some? ==>
                  job.kind.ManualTransfer?
                  || (job.payload.subscription != x.payload.subscription
                      && !(job.kind.MetadataScrape? && job.payload.subscription.None?)))
  {
    hide SchedInv; hide TasksInv; hide Exclusive; hide Reflects; hide CanStart; hide Updated; hide HasRoomFor;
    hide EditList; hide HandInv;
    AdmittedIff(s.running, s.tasks, s.phase.job, s.phase.limits);
  }

  // ------------------------------------------------------- settings kept fixed

  ghost predicate Within(tasks: seq<Job>, limits: Limits) {
    |tasks| <= limits.global && forall c: JobClass :: CountClass(tasks, c) <= limits.Of(c)
  }

  ghost predicate LimitInv(s: System, limits: Limits) {
    Within(s.tasks, limits) && (s.phase.Claiming? ==> s.phase.limits == limits)
  }

  lemma {:induction false} OneMoreWithin(r: Counters, tasks: seq<Job>, job: Job, limits: Limits)
    requires Within(tasks, limits) && Reflects(r, tasks) && Exclusive(tasks) && CanStart(r, job, limits)
    ensures Within(tasks + [job], limits)
  {
    StartKeepsExclusive(r, tasks, job, limits);
    CountsSplit(tasks, [job]);
    CountsOne(job);
    hide CountClass; hide Reflects; hide Exclusive; hide CanStart; hide ClassOf;
  }

  lemma {:induction false} OneLessWithin(tasks: seq<Job>, i: nat, limits: Limits)
    requires Within(tasks, limits) && i < |tasks|
    ensures Within(Without(tasks, i), limits)
  {
    CountsWithout(tasks, i);
    hide CountClass; hide ClassOf;
  }

  lemma {:induction false} NobodyWithin(limits: Limits)
    ensures Within([], limits)
  {
  }

  /** As long as the settings stay the same, every step stays within the limits. */
  lemma {:induction false} LimitStep(s: System, a: Action, limits: Limits)
    requires CrewInv(s) && LimitInv(s, limits) && Enabled(s, a) && (a.Select? ==> a.limits == limits)
    ensures LimitInv(Step(s, a), limits)
  {
    hide SchedInv; hide TasksInv; hide HandInv; hide Within; hide Reflects; hide Exclusive; hide CanStart;
    hide Eligible;
    hide Updated; hide Cleared; hide Archived; hide Inserted; hide Handled; hide Truncated; hide Committed;
    hide PopFrom; hide QueueAll;
    hide QueuePending; hide Finish; hide Without; hide Start; hide RecoveryOrder; hide InterruptedKeys; hide Judged;
    hide Recovered; hide Retries; hide EditList; hide WithoutProbe;
    NobodyWithin(limits);
    match a
    case Claim(w) => OneMoreWithin(s.running, s.tasks, s.phase.job, limits);
    case Join(i, outcome, w) => OneLessWithin(s.tasks, i, limits);
    case DrainJoin(i, outcome, w) => OneLessWithin(s.tasks, i, limits);
    case JudgeJob(guessed) => JudgedServes(s, guessed);
    case RecoverNext(w) => RecoveredServes(s, w);
    case _ =>
  }

  lemma {:induction false} JudgedServes(s: System, guessed: JobErrorClass)
    requires s.phase.Judging?
    ensures !Judged(s, s.phase.job, guessed).phase.Claiming?
  {
  }

  lemma {:induction false} RecoveredServes(s: System, w: Write)
    requires s.phase.Recovering?
    ensures !Recovered(s, w).phase.Claiming?
  {
  }

  /** With fixed settings, in no reachable state do more tasks run than allowed, in all or of any class. */
  lemma {:induction false} LimitsHoldThroughout(s: System, run: seq<Action>, limits: Limits)
    requires CrewInv(s) && LedgerInv(s) && LimitInv(s, limits) && IsRun(s, run)
    requires forall i :: 0 <= i < |run| && run[i].Select? ==> run[i].limits == limits
    ensures Within(Final(s, run).tasks, limits)
    decreases |run|
  {
    hide LedgerInv; hide CrewInv; hide Step; hide Enabled; hide Within;
    if run != [] {
      hide LimitInv;
      LedgerStep(s, run[0]);
      CrewStep(s, run[0]);
      LimitStep(s, run[0], limits);
      LimitsHoldThroughout(Step(s, run[0]), run[1..], limits);
    }
  }

  /** And so, kind by kind: both kinds of transfer together, scrapes, and pushes. */
  lemma {:induction false} KindsHoldThroughout(s: System, run: seq<Action>, limits: Limits)
    requires CrewInv(s) && LedgerInv(s) && LimitInv(s, limits) && IsRun(s, run)
    requires forall i :: 0 <= i < |run| && run[i].Select? ==> run[i].limits == limits
    ensures var tasks := Final(s, run).tasks;
            && |tasks| <= limits.global
            && CountKind(tasks, ManualTransfer) + CountKind(tasks, SubscriptionTransfer) <= limits.transfer
            && CountKind(tasks, MetadataScrape) <= limits.metadata
            && CountKind(tasks, PushDispatch) <= limits.push
  {
    LimitsHoldThroughout(s, run, limits);
    var tasks := Final(s, run).tasks;
    ClassesAreKinds(tasks);
    assert CountClass(tasks, Transfer) <= limits.Of(Transfer);
    assert CountClass(tasks, Metadata) <= limits.Of(Metadata);
    assert CountClass(tasks, Push) <= limits.Of(Push);
    hide LedgerInv; hide CrewInv; hide LimitInv; hide Final; hide IsRun; hide CountClass; hide CountKind;
  }

  /** A start is a saved change of the listed job from queued to running. */
  lemma {:induction false} StartIsPersisted(s: System, a: Action)
    requires LedgerInv(s) && Enabled(s, a) && StartedBy(s, a).Some?
    ensures var id, t := StartedBy(s, a).value, Step(s, a);
            && Lookup(s.files.mem, id).Some? && Lookup(s.files.mem, id).value.status.Queued?
            && Lookup(s.files.mem, id).value.priority == s.phase.job.priority
            && t.files.mem == t.files.disk && Lookup(t.files.disk, id).Some?
            && Lookup(t.files.disk, id).value.status.Running?
  {
    ClaimedInList(s.files.mem, s.phase.job.id, s.phase.job.priority, s.now);
    hide FilesOk; hide StartsOk; hide PhaseFits; hide EditList; hide Lookup; hide Start; hide WithoutProbe; hide Count;
  }

  lemma {:induction false} ClaimedInList(jobs: seq<Job>, id: string, p: JobPriority, now: int)
    ensures var after := EditList(jobs, id, Edit.Claim(p), now);
            after.Some? ==>
              && Lookup(jobs, id).Some? && Lookup(jobs, id).value.status.Queued? && Lookup(jobs, id).value.priority == p
              && Lookup(after.value, id).Some? && Lookup(after.value, id).value.status.Running?
  {
    var i := Find(jobs, id);
    if EditList(jobs, id, Edit.Claim(p), now).Some? {
      FindAfterEdit(jobs, i, EditList(jobs, id, Edit.Claim(p), now).value[i]);
    }
  }

  // ------------------------------------------------------------ reconciling

  lemma {:induction false} DroppedAre(jobs: seq<Job>, now: int, id: string)
    ensures id in Dropped(jobs, now) <==> exists j :: j in jobs && j.id == id && j.status.Queued? && IsDue(j, now)
  {
    hide IsDue;
    if jobs != [] {
      DroppedAre(jobs[1..], now, id);
      assert forall j :: j in jobs <==> j == jobs[0] || j in jobs[1..];
    }
  }

  lemma {:induction false} QueueAllPending(s: System, ids: seq<string>)
    requires CrewInv(s) && LedgerInv(s) && s.phase.Serving?
    ensures QueueAll(s.sched, s.files.mem, ids, s.now).pending
            == s.sched.pending + set id | id in ids && Pushable(s.files.mem, id, s.now)
    decreases |ids|
  {
    hide CrewInv; hide FilesOk; hide StartsOk; hide QueuePending; hide PhaseFits; hide Pushable;
    if ids != [] {
      PendingCrew(s, ids[0]);
      QueueAllPending(s.(sched := QueuePending(s.sched, s.files.mem, ids[0], s.now)), ids[1..]);
    }
  }

  /** A wake-up schedules the listed job, as it is listed, if it is queued and its time has
      come; otherwise it changes nothing. */
  lemma {:induction false} WakeUpMeans(s: System, id: string)
    requires CrewInv(s) && LedgerInv(s) && Enabled(s, Absorb(id))
    ensures var sched := Step(s, Absorb(id)).sched;
            if exists j :: j in s.files.mem && j.id == id && j.status.Queued?
                           && (j.nextAttemptAt.None? || j.nextAttemptAt.value <= s.now)
            then id in sched.pending && forall j :: j in s.files.mem && j.id == id ==> j in sched.Jobs()
            else sched == s.sched
  {
    assert Step(s, Absorb(id)).sched == QueuePending(s.sched, s.files.mem, id, s.now);
    ListIsDistinct(s.files.mem, s.starts, s.kinds);
    hide Step; hide LedgerInv; hide DistinctIds; hide Lookup; hide SchedOk; hide PushTo; hide Sched.Jobs; hide ListOk;
    hide TasksInv; hide CountInv; hide HandInv;
    forall j | j in s.files.mem && j.id == id ensures Lookup(s.files.mem, id) == Some(j) {
      LookupOf(s.files.mem, j);
    }
    if Lookup(s.files.mem, id).Some? {
      LookupIsListed(s.files.mem, id);
      PushKeepsSched(s.sched, Lookup(s.files.mem, id).value);
    }
  }

  /** No wake-up is lost for good: with the scheduler drained, reconciling schedules
      exactly the queued jobs whose time has come. */
  lemma {:induction false} ReconcileFindsAll(s: System, id: string)
    requires CrewInv(s) && LedgerInv(s) && Enabled(s, Reconcile)
    ensures id in Step(s, Reconcile).sched.pending
            <==> exists j :: j in s.files.mem && j.id == id && j.status.Queued?
                             && (j.nextAttemptAt.None? || j.nextAttemptAt.value <= s.now)
  {
    var ids := Dropped(s.files.mem, s.now);
    assert Step(s, Reconcile).sched == QueueAll(s.sched, s.files.mem, ids, s.now);
    ListIsDistinct(s.files.mem, s.starts, s.kinds);
    hide Step; hide QueueAll; hide Lookup; hide Dropped; hide DistinctIds;
    QueueAllPending(s, ids);
    DroppedAre(s.files.mem, s.now, id);
    hide CrewInv; hide LedgerInv;
    forall j | j in s.files.mem && j.id == id ensures Lookup(s.files.mem, id) == Some(j) {
      LookupOf(s.files.mem, j);
    }
  }

  lemma {:induction false} LookupOf(jobs: seq<Job>, j: Job)
    requires DistinctIds(jobs) && j in jobs
    ensures Lookup(jobs, j.id) == Some(j)
  {
    var p :| 0 <= p < |jobs| && jobs[p] == j;
    assert Find(jobs, j.id) <= p;
  }

  /** Reconciling wakes the jobs up newest first: of two jobs found, the one listed later. */
  lemma {:induction false} DroppedNewestFirst(jobs: seq<Job>, now: int, i: nat, j: nat)
    requires DistinctIds(jobs) && i < j < |jobs| && jobs[i].id in Dropped(jobs, now) && jobs[j].id in Dropped(jobs, now)
    ensures exists p, q :: 0 <= p < q < |Dropped(jobs, now)| && Dropped(jobs, now)[p] == jobs[j].id
                           && Dropped(jobs, now)[q] == jobs[i].id
    decreases |jobs|
  {
    var rest, d := Dropped(jobs[1..], now), Dropped(jobs, now);
    DroppedAre(jobs[1..], now, jobs[i].id);
    DroppedAre(jobs[1..], now, jobs[j].id);
    assert jobs[1..][j - 1] == jobs[j];
    var head := if jobs[0].status.Queued? && IsDue(jobs[0], now) then [jobs[0].id] else [];
    assert d == rest + head;
    hide Dropped; hide IsDue;
    if i == 0 {
      assert jobs[0].id !in rest by {
        assert forall x :: x in jobs[1..] ==> x.id != jobs[0].id;
      }
      var p :| 0 <= p < |rest| && rest[p] == jobs[j].id;
      assert d[p] == jobs[j].id && d[|rest|] == jobs[0].id;
    } else {
      assert jobs[1..][i - 1] == jobs[i];
      assert jobs[i].id in rest && jobs[j].id in rest;
      DroppedNewestFirst(jobs[1..], now, i - 1, j - 1);
      var p, q :| 0 <= p < q < |rest| && rest[p] == jobs[j].id && rest[q] == jobs[i].id;
      assert d[p] == rest[p] && d[q] == rest[q];
    }
  }

  /** A crash reloads the job file, cut to capacity as any load does, and forgets the rest. */
  lemma {:induction false} CrashReloads(s: System)
    ensures var t, loaded := Step(s, Crash), Truncated(s.files.disk);
            && t.files == Files(loaded, loaded, s.files.archive)
            && t.tasks == [] && t.sched.pending == {} && t.sched.cursor == 0 && t.running.total == 0
            && t.phase.Recovering? && t.phase.todo == RecoveryOrder(loaded) && t.phase.seen == {}
            && t.phase.interrupted == InterruptedKeys(RecoveryOrder(loaded)) && t.unsent == {}
  {
    hide Truncated; hide RecoveryOrder; hide InterruptedKeys;
  }
}
