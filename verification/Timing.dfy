/** No retry is claimed before it is due. */
module Timing {
  import opened Options
  import opened JobModel
  import opened Store
  import opened Scheduler
  import opened Running
  import opened Reliability
  import opened Recovery
  import opened Ledger
  import opened Worker
  import opened Bounded
  import opened Crew

  /** Every listed queued job with one of these ids is due. */
  ghost predicate AllDue(mem: seq<Job>, ids: set<string>, now: int) {
    forall j :: j in mem && j.id in ids && j.status.Queued? ==> IsDue(j, now)
  }

  /** The ids on their way to a claim. */
  function Ahead(s: System): set<string> {
    s.sched.pending + if s.phase.Claiming? then {s.phase.job.id} else {}
  }

  ghost predicate DueInv(s: System) {
    AllDue(s.files.mem, Ahead(s), s.now)
  }

  lemma {:induction false} AheadIsKnown(s: System)
    requires CrewInv(s)
    ensures Ahead(s) <= s.kinds.Keys
  {
    hide SchedOk; hide Sched.Jobs; hide TasksInv; hide CountInv;
  }

  lemma {:induction false} TameKeepsDue(after: seq<Job>, before: seq<Job>, ids: set<string>, known: set<string>,
          now: int)
    requires AllDue(before, ids, now) && Tame(after, before, known) && ids <= known
    ensures AllDue(after, ids, now)
  {
    forall j | j in after && j.id in ids && j.status.Queued? ensures IsDue(j, now) {
      assert j.id in known;
      assert Was(j, before);
    }
  }

  lemma {:induction false} PendingDue(sched: Sched, mem: seq<Job>, id: string, now: int, kinds: map<string, JobKind>,
          starts: Starts)
    requires SchedInv(sched, kinds) && ListOk(mem, starts, kinds) && AllDue(mem, sched.pending, now)
    ensures var after := QueuePending(sched, mem, id, now); AllDue(mem, after.pending, now) && SchedInv(after, kinds)
  {
    if Pushable(mem, id, now) {
      var job := Lookup(mem, id).value;
      LookupIsListed(mem, id);
      ListedIsKnown(mem, job, starts, kinds);
      ListIsDistinct(mem, starts, kinds);
      OnePerId(mem, job);
      PushedSched(sched, job, kinds);
    }
    hide Lookup; hide ListOk; hide PushTo; hide SchedInv; hide Known; hide IsDue; hide DistinctIds;
  }

  lemma {:induction false} QueueAllDue(sched: Sched, mem: seq<Job>, ids: seq<string>, now: int,
          kinds: map<string, JobKind>, starts: Starts)
    requires SchedInv(sched, kinds) && ListOk(mem, starts, kinds) && AllDue(mem, sched.pending, now)
    ensures AllDue(mem, QueueAll(sched, mem, ids, now).pending, now)
    decreases |ids|
  {
    hide SchedInv; hide ListOk; hide AllDue; hide QueuePending;
    if ids != [] {
      PendingDue(sched, mem, ids[0], now, kinds, starts);
      QueueAllDue(QueuePending(sched, mem, ids[0], now), mem, ids[1..], now, kinds, starts);
    }
  }

  lemma {:induction false} FewerDue(mem: seq<Job>, ids: set<string>, fewer: set<string>, now: int)
    requires AllDue(mem, ids, now) && fewer <= ids
    ensures AllDue(mem, fewer, now)
  {
  }

  lemma {:induction false} LaterDue(mem: seq<Job>, ids: set<string>, now: int, later: int)
    requires AllDue(mem, ids, now) && now <= later
    ensures AllDue(mem, ids, later)
  {
  }

  lemma {:induction false} RetriedDue(f: Files, id: string, e: Edit, w: Write, ids: set<string>, now: int)
    requires AllDue(f.mem, ids, now) && id !in ids
    ensures AllDue(Updated(f, id, e, now, w).mem, ids, now)
  {
    var mem := Updated(f, id, e, now, w).mem;
    forall j | j in mem && j.id in ids && j.status.Queued? ensures IsDue(j, now) {
      OthersUntouched(f, id, e, now, w, j);
    }
  }

  lemma {:induction false} SelectedAhead(s: System, limits: Limits)
    requires CrewInv(s) && s.phase.Serving?
    ensures Ahead(Selected(s, limits)) <= Ahead(s) && Selected(s, limits).files == s.files
            && Selected(s, limits).now == s.now
  {
    var eligible := Eligible(s.running, limits, s.circuits, s.now);
    PoppedSched(s.sched, eligible, s.kinds);
    hide PopFrom; hide SchedInv; hide TasksInv; hide CountInv; hide CanStart; hide Ask; hide Allows; hide Known;
    hide Circuits.With; hide Circuits.Of;
  }

  /** A step that changes the files tamely and puts nothing on its way to a claim. */
  lemma {:induction false} BystanderDue(s: System, t: System)
    requires CrewInv(s) && DueInv(s) && Tame(t.files.mem, s.files.mem, s.kinds.Keys) && s.now == t.now
            && Ahead(t) <= Ahead(s)
    ensures DueInv(t)
  {
    AheadIsKnown(s);
    TameKeepsDue(t.files.mem, s.files.mem, Ahead(s), s.kinds.Keys, s.now);
    hide CrewInv; hide Ahead; hide Tame;
    FewerDue(t.files.mem, Ahead(s), Ahead(t), s.now);
  }

  lemma {:induction false} RequeuedDue(s: System, digest: nat, w: Write)
    requires CrewInv(s) && DueInv(s) && s.phase.Requeueing?
    ensures DueInv(Step(s, Action.Requeue(digest, w)))
  {
    HandIs(s);
    hide CrewInv; hide AllDue; hide Updated; hide RetryOf;
    RetriedDue(s.files, s.phase.failed.id, RetryOf(s.phase.failed, digest, s.now), w, s.sched.pending, s.now);
  }

  /** The files of a step other than a retry or a restart never wake a known job. */
  lemma {:induction false} StepIsTame(s: System, a: Action)
    requires LedgerInv(s) && Enabled(s, a) && !a.Requeue? && !a.Crash?
    ensures Tame(Step(s, a).files.mem, s.files.mem, s.kinds.Keys)
  {
    hide FilesOk; hide StartsOk; hide PhaseFits; hide Calm; hide Tame; hide Updated; hide Cleared; hide Archived;
    hide Inserted; hide Handled;
    hide Truncated; hide Committed; hide PopFrom; hide QueueAll; hide QueuePending; hide Finish; hide Without;
    hide Start;
    hide Recovered; hide Lookup; hide Dropped; hide EditList; hide NewJob;
    var t := Step(s, a);
    var f, starts, kinds := s.files, s.starts, s.kinds;
    StillIsCalm(f, starts, kinds);
    CalmIsTame(f, f, starts, kinds);
    if FilesOnly(a) {
      FilesOnlyIsCalm(s, a);
      CalmIsTame(t.files, f, starts, kinds);
    } else {
      match a
      case Submit(id, kind, payload, priority, w) => SubmitIsTame(s, id, kind, payload, priority, w);
      case Claim(w) =>
        PlainUpdate(f, s.phase.job.id, Edit.Claim(s.phase.job.priority), s.now, w, starts, kinds);
        CalmIsTame(t.files, f, starts, kinds);
      case Join(i, outcome, w) =>
        HandledIsCalm(f, s.tasks[i].id, outcome, s.now, w, starts, kinds);
        CalmIsTame(t.files, f, starts, kinds);
      case DrainJoin(i, outcome, w) =>
        HandledIsCalm(f, s.tasks[i].id, outcome, s.now, w, starts, kinds);
        CalmIsTame(t.files, f, starts, kinds);
      case ClearError(w) =>
        PlainUpdate(f, s.phase.id, Edit.ClearError, s.now, w, starts, kinds);
        CalmIsTame(t.files, f, starts, kinds);
      case AttachClass(w) =>
        PlainUpdate(f, s.phase.failed.id, Edit.AttachClass(s.phase.error), s.now, w, starts, kinds);
        CalmIsTame(t.files, f, starts, kinds);
      case RecoverNext(w) => RecoveredIsTame(s, w);
      case MarkNext(w) =>
        MarkedIsCalm(s, w);
        CalmIsTame(t.files, f, starts, kinds);
      case QueueGone(id, w) =>
        PlainUpdate(f, id, QueueUnavailable, s.now, w, starts, kinds);
        CalmIsTame(t.files, f, starts, kinds);
      case _ =>
    }
  }

  lemma {:induction false} SubmitIsTame(s: System, id: string, kind: JobKind, payload: Payload,
          priority: JobPriority, w: Write)
    requires LedgerInv(s) && id !in s.kinds
    ensures Tame(Inserted(s.files, NewJob(id, kind, payload, priority, s.now), w).mem, s.files.mem, s.kinds.Keys)
  {
    InsertIsCalm(s.files, NewJob(id, kind, payload, priority, s.now), w, s.starts, s.kinds);
  }

  lemma {:induction false} RecoveredIsTame(s: System, w: Write)
    requires LedgerInv(s) && s.phase.Recovering?
    ensures Tame(Recovered(s, w).files.mem, s.files.mem, s.kinds.Keys)
  {
    StillIsCalm(s.files, s.starts, s.kinds);
    var Recovering(todo, seen, interrupted) := s.phase;
    if todo != [] && Judge(todo[0], seen, interrupted).Mark? {
      PlainUpdate(s.files, todo[0].id, Judge(todo[0], seen, interrupted).edit, s.now, w, s.starts, s.kinds);
    }
    hide FilesOk; hide StartsOk; hide Tame; hide SeenAfter; hide Updated;
  }

  predicate Forward(s: System, a: Action) {
    a.Tick? ==> s.now <= a.to
  }

  lemma {:induction false} DueStep(s: System, a: Action)
    requires CrewInv(s) && LedgerInv(s) && DueInv(s) && Enabled(s, a) && Forward(s, a)
    ensures DueInv(Step(s, a))
  {
    hide CrewInv; hide LedgerInv; hide AllDue; hide Ahead; hide Tame; hide Updated; hide Selected; hide Crashed;
    hide QueueAll; hide Dropped;
    match a
    case Requeue(digest, w) => RequeuedDue(s, digest, w);
    case Crash => CrashedDue(s);
    case Tick(to) =>
      TickAhead(s, to);
      LaterDue(s.files.mem, Ahead(s), s.now, to);
    case Absorb(id) => AbsorbedDue(s, id);
    case Reconcile => ReconciledDue(s);
    case Select(limits) =>
      StepIsTame(s, a);
      SelectedAhead(s, limits);
      BystanderDue(s, Step(s, a));
    case _ =>
      StepIsTame(s, a);
      StepAhead(s, a);
      BystanderDue(s, Step(s, a));
  }

  lemma {:induction false} TickAhead(s: System, to: int)
    ensures Ahead(s.(now := to)) == Ahead(s)
  {
  }

  lemma {:induction false} CrashedDue(s: System)
    ensures DueInv(Crashed(s))
  {
    hide Truncated; hide RecoveryOrder; hide InterruptedKeys;
  }

  lemma {:induction false} AbsorbedDue(s: System, id: string)
    requires CrewInv(s) && LedgerInv(s) && DueInv(s) && s.phase.Serving?
    ensures DueInv(Step(s, Absorb(id)))
  {
    PendingDue(s.sched, s.files.mem, id, s.now, s.kinds, s.starts);
    hide AllDue; hide QueuePending; hide CountInv; hide TasksInv; hide SchedInv; hide ListOk;
  }

  lemma {:induction false} ReconciledDue(s: System)
    requires CrewInv(s) && LedgerInv(s) && DueInv(s) && s.phase.Serving?
    ensures DueInv(s.(sched := QueueAll(s.sched, s.files.mem, Dropped(s.files.mem, s.now), s.now)))
  {
    QueueAllDue(s.sched, s.files.mem, Dropped(s.files.mem, s.now), s.now, s.kinds, s.starts);
    hide AllDue; hide QueueAll; hide CountInv; hide TasksInv; hide SchedInv; hide ListOk; hide Dropped;
  }

  lemma {:induction false} StepAhead(s: System, a: Action)
    requires Enabled(s, a) && !a.Absorb? && !a.Reconcile? && !a.Select? && !a.Tick?
    ensures Ahead(Step(s, a)) <= Ahead(s) && (!a.Crash? ==> Step(s, a).now == s.now)
  {
    hide Updated; hide Cleared; hide Archived; hide Inserted; hide Handled;
    hide Truncated; hide Committed; hide PopFrom; hide QueueAll; hide QueuePending; hide Finish; hide Without;
    hide Start;
    hide Carry; hide SeenAfter; hide Lookup; hide Dropped; hide EditList; hide NewJob; hide RecoveryOrder;
    hide InterruptedKeys; hide WithoutProbe; hide Count;
  }

  // --------------------------------------------------------------- the runs

  ghost predicate ClockForward(s: System, run: seq<Action>)
    requires IsRun(s, run)
    decreases |run|
  {
    run != [] ==> Forward(s, run[0]) && ClockForward(Step(s, run[0]), run[1..])
  }

  lemma {:induction false} RunKeepsDue(s: System, run: seq<Action>)
    requires CrewInv(s) && LedgerInv(s) && DueInv(s) && IsRun(s, run) && ClockForward(s, run)
    ensures CrewInv(Final(s, run)) && LedgerInv(Final(s, run)) && DueInv(Final(s, run))
    decreases |run|
  {
    hide LedgerInv; hide CrewInv; hide DueInv; hide Step; hide Enabled; hide Forward;
    if run != [] {
      LedgerStep(s, run[0]);
      CrewStep(s, run[0]);
      DueStep(s, run[0]);
      RunKeepsDue(Step(s, run[0]), run[1..]);
    }
  }

  /** As long as the clock does not go back, whatever a run starts was due when it was
      claimed: a retry never runs before its delay is over. */
  lemma {:induction false} NothingRunsEarly(disk: seq<Job>, archive: seq<Job>, kinds: map<string, JobKind>, now: int,
          run: seq<Action>, a: Action)
    requires ListOk(disk, map[], kinds) && IsRun(Boot(disk, archive, kinds, now), run)
    requires ClockForward(Boot(disk, archive, kinds, now), run)
    requires Enabled(Final(Boot(disk, archive, kinds, now), run), a)
    requires StartedBy(Final(Boot(disk, archive, kinds, now), run), a).Some?
    ensures var s := Final(Boot(disk, archive, kinds, now), run);
            var listed := Lookup(s.files.mem, StartedBy(s, a).value);
            listed.Some? && listed.value.status.Queued? && IsDue(listed.value, s.now)
  {
    BootLedger(disk, archive, kinds, now);
    BootCrew(disk, archive, kinds, now);
    assert DueInv(Boot(disk, archive, kinds, now)) by { BootDue(disk, archive, kinds, now); }
    RunKeepsDue(Boot(disk, archive, kinds, now), run);
    var s := Final(Boot(disk, archive, kinds, now), run);
    hide Boot; hide Final; hide IsRun; hide ListOk; hide CrewInv; hide LedgerInv; hide DueInv; hide ClockForward;
    hide Enabled; hide Step; hide Lookup;
    StartIsPersisted(s, a);
    StartIsAhead(s, a);
  }

  lemma {:induction false} BootDue(disk: seq<Job>, archive: seq<Job>, kinds: map<string, JobKind>, now: int)
    ensures DueInv(Boot(disk, archive, kinds, now))
  {
    hide Truncated; hide RecoveryOrder; hide InterruptedKeys;
  }

  lemma {:induction false} StartIsAhead(s: System, a: Action)
    requires DueInv(s) && Enabled(s, a) && StartedBy(s, a).Some?
    ensures var listed := Lookup(s.files.mem, StartedBy(s, a).value);
            listed.Some? && listed.value.status.Queued? ==> IsDue(listed.value, s.now)
  {
    hide Step; hide Lookup; hide IsDue;
    var id := StartedBy(s, a).value;
    if Lookup(s.files.mem, id).Some? {
      LookupIsListed(s.files.mem, id);
    }
  }

  /** The listed job is queued on this attempt, due one second to five minutes from now, and
      scheduling it at a time before that does nothing. */
  ghost predicate Waits(mem: seq<Job>, id: string, attempt: nat, now: int, sched: Sched, early: int) {
    && Lookup(mem, id).Some? && Lookup(mem, id).value.status.Queued? && Lookup(mem, id).value.attempt == attempt
    && Lookup(mem, id).value.nextAttemptAt.Some?
    && now < Lookup(mem, id).value.nextAttemptAt.value <= now + RETRY_MAX_SECONDS
    && (early < Lookup(mem, id).value.nextAttemptAt.value ==> QueuePending(sched, mem, id, early) == sched)
  }

  /** A saved retry waits, on its next attempt, which is at most the third. */
  lemma {:induction false} RetryWaits(s: System, digest: nat, sched: Sched, early: int)
    requires LedgerInv(s) && s.phase.Requeueing?
    requires Lookup(s.files.mem, s.phase.failed.id).Some? && Lookup(s.files.mem, s.phase.failed.id).value.status.Failed?
    ensures var listed := Lookup(s.files.mem, s.phase.failed.id).value;
            && listed.attempt + 1 <= MAX_AUTO_ATTEMPTS
            && Waits(Step(s, Action.Requeue(digest, Done)).files.mem, listed.id, listed.attempt + 1, s.now, sched,
               early)
  {
    var job := s.phase.failed;
    AttemptInHand(s);
    LookupIsListed(s.files.mem, job.id);
    RetriedWaits(s.files, job, digest, s.now, sched, early);
    assert Step(s, Action.Requeue(digest, Done)) == Retried(s, job, digest, Done);
    hide Step; hide Enabled; hide Lookup; hide Updated; hide RetryOf; hide Waits; hide LedgerInv;
  }

  lemma {:induction false} RetriedWaits(f: Files, job: Job, digest: nat, now: int, sched: Sched, early: int)
    requires Lookup(f.mem, job.id).Some? && Lookup(f.mem, job.id).value.status.Failed?
    ensures Waits(Updated(f, job.id, RetryOf(job, digest, now), now, Done).mem, job.id, job.attempt + 1, now, sched,
            early)
  {
    DelayRange(job.attempt + 1, digest);
    RetriedInList(f.mem, job.id, job.attempt + 1, now + RetryDelay(job.attempt + 1, digest), now);
    hide Lookup; hide EditList; hide RetryDelay; hide PushTo;
  }

  lemma {:induction false} AttemptInHand(s: System)
    requires LedgerInv(s) && s.phase.Requeueing?
    ensures s.phase.failed.attempt < MAX_AUTO_ATTEMPTS
    ensures forall j :: j in s.files.mem && j.id == s.phase.failed.id ==> j.attempt == s.phase.failed.attempt
  {
  }

  lemma {:induction false} RetriedInList(jobs: seq<Job>, id: string, attempt: nat, due: int, now: int)
    requires Lookup(jobs, id).Some? && Lookup(jobs, id).value.status.Failed?
    ensures var after := EditList(jobs, id, Edit.Requeue(attempt, due), now);
            && after.Some? && Lookup(after.value, id).Some? && Lookup(after.value, id).value.status.Queued?
            && Lookup(after.value, id).value.attempt == attempt
            && Lookup(after.value, id).value.nextAttemptAt == Some(due)
  {
    var i := Find(jobs, id);
    FindAfterEdit(jobs, i, EditList(jobs, id, Edit.Requeue(attempt, due), now).value[i]);
  }
}
