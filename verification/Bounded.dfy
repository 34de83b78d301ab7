/** How often a job is started, and which keys are live, over every run of the
    worker with crashes and failing writes anywhere. */
module Bounded {
  import opened Options
  import opened JobModel
  import opened Store
  import opened Scheduler
  import opened Running
  import opened Reliability
  import opened Recovery
  import opened Ledger
  import opened Worker

  // ----------------------------------------------------------- the files

  ghost predicate FilesOk(f: Files, starts: Starts, kinds: map<string, JobKind>) {
    ListOk(f.mem, starts, kinds) && ListOk(f.disk, starts, kinds)
  }

  /** The files keep their invariant, and no known job wakes up. */
  ghost predicate Calm(g: Files, f: Files, starts: Starts, kinds: map<string, JobKind>) {
    FilesOk(g, starts, kinds) && Tame(g.mem, f.mem, kinds.Keys)
  }

  lemma {:induction false} StillIsCalm(f: Files, starts: Starts, kinds: map<string, JobKind>)
    requires FilesOk(f, starts, kinds)
    ensures Calm(f, f, starts, kinds)
  {
    hide ListOk;
    assert ListOk(f.mem, starts, kinds);
    ListIsDistinct(f.mem, starts, kinds);
    FewerIsTame(f.mem, f.mem, kinds.Keys);
  }

  lemma {:induction false} ListIsDistinct(jobs: seq<Job>, starts: Starts, kinds: map<string, JobKind>)
    requires ListOk(jobs, starts, kinds)
    ensures DistinctIds(jobs)
  {
  }

  lemma {:induction false} CommitIsCalm(f: Files, snapshot: seq<Job>, w: Write, starts: Starts,
          kinds: map<string, JobKind>)
    requires FilesOk(f, starts, kinds) && ListOk(snapshot, starts, kinds) && Tame(snapshot, f.mem, kinds.Keys)
    ensures Calm(Committed(f, snapshot, w), f, starts, kinds)
  {
    StillIsCalm(f, starts, kinds);
    hide ListOk; hide Tame;
  }

  lemma {:induction false} FewerIsCalm(f: Files, snapshot: seq<Job>, w: Write, starts: Starts,
          kinds: map<string, JobKind>)
    requires FilesOk(f, starts, kinds) && Fewer(snapshot, f.mem)
    ensures Calm(Committed(f, snapshot, w), f, starts, kinds)
  {
    FewerKeepsList(snapshot, f.mem, starts, kinds);
    FewerIsTame(snapshot, f.mem, kinds.Keys);
    hide ListOk; hide Tame; hide Fewer;
    CommitIsCalm(f, snapshot, w, starts, kinds);
  }

  lemma {:induction false} UpdateKeepsFiles(f: Files, id: string, e: Edit, now: int, w: Write, starts: Starts,
          kinds: map<string, JobKind>)
    requires FilesOk(f, starts, kinds) && RetryOk(f.mem, id, e)
    ensures FilesOk(Updated(f, id, e, now, w), starts, kinds)
    ensures !e.Requeue? ==> Calm(Updated(f, id, e, now, w), f, starts, kinds)
  {
    EditKeepsList(f.mem, id, e, now, starts, kinds);
    StillIsCalm(f, starts, kinds);
    if !e.Requeue? {
      EditIsTame(f.mem, id, e, now, kinds.Keys);
      if EditList(f.mem, id, e, now).Some? {
        CommitIsCalm(f, EditList(f.mem, id, e, now).value, w, starts, kinds);
      }
    }
    hide EditList; hide ListOk; hide Tame;
  }

  lemma {:induction false} PlainUpdate(f: Files, id: string, e: Edit, now: int, w: Write, starts: Starts,
          kinds: map<string, JobKind>)
    requires FilesOk(f, starts, kinds) && !e.Requeue?
    ensures Calm(Updated(f, id, e, now, w), f, starts, kinds)
  {
    UpdateKeepsFiles(f, id, e, now, w, starts, kinds);
  }

  lemma {:induction false} ArchiveIsCalm(f: Files, retain: nat, cap: nat, w1: Write, w2: Write, starts: Starts,
          kinds: map<string, JobKind>)
    requires FilesOk(f, starts, kinds)
    ensures Calm(Archived(f, retain, cap, w1, w2), f, starts, kinds)
  {
    StillIsCalm(f, starts, kinds);
    ListIsDistinct(f.mem, starts, kinds);
    var n := Surplus(f.mem, retain);
    if n > 0 {
      ArchivedIs(f, retain, cap, w1, w2);
      DropFewer(f.mem, n);
      var g := f.(archive := LastJobs(ArchiveWith(f, n), cap));
      FewerIsCalm(g, DropTerminal(f.mem, n), w2, starts, kinds);
      StillIsCalm(g, starts, kinds);
    }
    hide ListOk; hide Tame; hide Surplus; hide DropTerminal; hide OldestTerminal; hide Store.Select; hide Ids;
    hide LastJobs; hide CutOff; hide DistinctIds;
  }

  lemma {:induction false} ClearIsCalm(f: Files, w1: Write, w2: Write, starts: Starts, kinds: map<string, JobKind>)
    requires FilesOk(f, starts, kinds)
    ensures Calm(Cleared(f, w1, w2), f, starts, kinds)
  {
    ListIsDistinct(f.mem, starts, kinds);
    LiveFewer(f.mem);
    FewerIsCalm(f, Live(f.mem), w1, starts, kinds);
    hide ListOk; hide Tame; hide Live;
  }

  lemma {:induction false} InsertIsCalm(f: Files, job: Job, w: Write, starts: Starts, kinds: map<string, JobKind>)
    requires FilesOk(f, starts, kinds) && StartsOk(starts, kinds) && job.id !in kinds && IsNew(job)
    ensures FilesOk(Inserted(f, job, w), starts, kinds[job.id := job.kind])
    ensures Tame(Inserted(f, job, w).mem, f.mem, kinds.Keys)
  {
    MoreKinds(f.mem, starts, kinds, job.id, job.kind);
    MoreKinds(f.disk, starts, kinds, job.id, job.kind);
    StillIsCalm(f, starts, kinds);
    if Existing(f.mem, job).None? {
      AddKeepsList(f.mem, job, starts, kinds);
      FreshIsDistinct(f.mem, job, starts, kinds);
      AddIsTame(f.mem, job, kinds.Keys);
    }
    hide ListOk; hide Tame; hide Existing; hide Truncated;
  }

  lemma {:induction false} FreshIsDistinct(jobs: seq<Job>, job: Job, starts: Starts, kinds: map<string, JobKind>)
    requires ListOk(jobs, starts, kinds) && job.id !in kinds
    ensures DistinctIds(jobs + [job])
  {
    forall j | j in jobs ensures j.id != job.id {
      assert JobOk(j, starts, kinds);
    }
  }

  lemma {:induction false} HandledIsCalm(f: Files, id: string, outcome: Outcome, now: int, w: Write, starts: Starts,
          kinds: map<string, JobKind>)
    requires FilesOk(f, starts, kinds)
    ensures Calm(Handled(f, id, outcome, now, w), f, starts, kinds)
  {
    StillIsCalm(f, starts, kinds);
    match outcome
    case Finished =>
    case Erred(error) => PlainUpdate(f, id, FailError(error), now, w, starts, kinds);
    case Panicked => PlainUpdate(f, id, FailPanic, now, w, starts, kinds);
    case TimedOut => PlainUpdate(f, id, FailTimeout, now, w, starts, kinds);
  }

  // ---------------------------------------------------------- the invariant

  /** The job in the worker's hand is on its listed attempt. */
  ghost predicate JobFits(job: Job, mem: seq<Job>, kinds: map<string, JobKind>) {
    && job.id in kinds && kinds[job.id] == job.kind
    && forall j :: j in mem && j.id == job.id ==> j.attempt == job.attempt
  }

  ghost predicate PhaseFits(p: Phase, mem: seq<Job>, kinds: map<string, JobKind>) {
    match p
    case Attaching(job, _) => JobFits(job, mem, kinds)
    case Requeueing(job) =>
      JobFits(job, mem, kinds) && job.kind.SupportsAutomaticRetry() && job.attempt < MAX_AUTO_ATTEMPTS
    case _ => true
  }

  ghost predicate LedgerInv(s: System) {
    && FilesOk(s.files, s.starts, s.kinds) && StartsOk(s.starts, s.kinds)
    && PhaseFits(s.phase, s.files.mem, s.kinds)
  }

  lemma {:induction false} TameFits(job: Job, after: seq<Job>, before: seq<Job>, kinds: map<string, JobKind>)
    requires JobFits(job, before, kinds) && Tame(after, before, kinds.Keys)
    ensures JobFits(job, after, kinds)
  {
  }

  lemma {:induction false} TamePhase(p: Phase, after: seq<Job>, before: seq<Job>, kinds: map<string, JobKind>)
    requires PhaseFits(p, before, kinds) && Tame(after, before, kinds.Keys)
    ensures PhaseFits(p, after, kinds)
  {
    hide JobFits; hide Tame;
    match p
    case Attaching(job, _) => TameFits(job, after, before, kinds);
    case Requeueing(job) => TameFits(job, after, before, kinds);
    case _ =>
  }

  /** The actions that change only the files. */
  predicate FilesOnly(a: Action) {
    a.CancelJob? || a.SetPriority? || a.ClearJobs? || a.CompactJobs? || a.ArchiveJobs? || a.Report?
  }

  lemma {:induction false} FilesOnlyIsCalm(s: System, a: Action)
    requires Enabled(s, a) && FilesOnly(a) && FilesOk(s.files, s.starts, s.kinds)
    ensures Step(s, a) == s.(files := Step(s, a).files) && Calm(Step(s, a).files, s.files, s.starts, s.kinds)
  {
    hide FilesOk; hide Calm; hide Updated; hide Cleared; hide Archived; hide Committed; hide Truncated;
    var f, starts, kinds := s.files, s.starts, s.kinds;
    match a
    case CancelJob(id, w) => PlainUpdate(f, id, Cancel, s.now, w, starts, kinds);
    case SetPriority(id, priority, w) => PlainUpdate(f, id, Reprioritize(priority), s.now, w, starts, kinds);
    case ClearJobs(w, w2) => ClearIsCalm(f, w, w2, starts, kinds);
    case CompactJobs(w) => CompactIsCalm(f, w, starts, kinds);
    case ArchiveJobs(retain, cap, w, w2) => ArchiveIsCalm(f, retain, cap, w, w2, starts, kinds);
    case Report(id, e, w) => PlainUpdate(f, id, e, s.now, w, starts, kinds);
  }

  lemma {:induction false} CompactIsCalm(f: Files, w: Write, starts: Starts, kinds: map<string, JobKind>)
    requires FilesOk(f, starts, kinds)
    ensures Calm(Committed(f, Truncated(f.mem), w), f, starts, kinds)
  {
    ListIsDistinct(f.mem, starts, kinds);
    TruncatedFewer(f.mem);
    FewerIsCalm(f, Truncated(f.mem), w, starts, kinds);
  }

  lemma {:induction false} LookupIsListed(jobs: seq<Job>, id: string)
    requires Lookup(jobs, id).Some?
    ensures Lookup(jobs, id).value in jobs && Lookup(jobs, id).value.id == id
  {
  }

  lemma {:induction false} JudgedFits(s: System, guessed: JobErrorClass)
    requires LedgerInv(s) && s.phase.Judging?
    ensures LedgerInv(Judged(s, s.phase.job, guessed))
  {
    var id := s.phase.job.id;
    if Lookup(s.files.mem, id).Some? {
      var job := Lookup(s.files.mem, id).value;
      LookupIsListed(s.files.mem, id);
      assert JobOk(job, s.starts, s.kinds);
      OnePerId(s.files.mem, job);
      hide ListOk; hide StartsOk; hide Lookup; hide JobErrorClassOf;
    }
  }

  lemma {:induction false} OnePerId(jobs: seq<Job>, job: Job)
    requires DistinctIds(jobs) && job in jobs
    ensures forall j :: j in jobs && j.id == job.id ==> j == job
  {
  }

  lemma {:induction false} ClaimedLedger(s: System, job: Job, w: Write)
    requires LedgerInv(s) && s.phase.Claiming?
    ensures LedgerInv(Claimed(s, job, w))
  {
    var e := Edit.Claim(job.priority);
    PlainUpdate(s.files, job.id, e, s.now, w, s.starts, s.kinds);
    ClaimedFiles(s.files, job, s.now, s.starts, s.kinds);
    hide FilesOk; hide StartsOk; hide EditList; hide Updated; hide Tame; hide Start; hide WithoutProbe; hide Count;
  }

  lemma {:induction false} ClaimedFiles(f: Files, job: Job, now: int, starts: Starts, kinds: map<string, JobKind>)
    requires FilesOk(f, starts, kinds) && StartsOk(starts, kinds)
    ensures EditList(f.mem, job.id, Edit.Claim(job.priority), now).Some? ==>
              var more := starts[job.id := Count(starts, job.id) + 1];
              FilesOk(Updated(f, job.id, Edit.Claim(job.priority), now, Done), more, kinds) && StartsOk(more, kinds)
  {
    if EditList(f.mem, job.id, Edit.Claim(job.priority), now).Some? {
      ClaimKeepsList(f.mem, job.id, job.priority, now, starts, kinds);
    }
    hide ListOk; hide StartsOk; hide EditList; hide Count;
  }

  lemma {:induction false} RequeuedLedger(s: System, digest: nat, w: Write)
    requires LedgerInv(s) && s.phase.Requeueing?
    ensures LedgerInv(Step(s, Action.Requeue(digest, w)))
  {
    var job := s.phase.failed;
    var e := RetryOf(job, digest, s.now);
    FitRetry(s.files.mem, job, e, s.starts, s.kinds);
    UpdateKeepsFiles(s.files, job.id, e, s.now, w, s.starts, s.kinds);
    assert Step(s, Action.Requeue(digest, w)) == Retried(s, job, digest, w);
    hide Step; hide Enabled;
    hide FilesOk; hide StartsOk; hide JobFits; hide RetryOk; hide RetryOf; hide Updated; hide Retries; hide Calm;
  }

  lemma {:induction false} FitRetry(mem: seq<Job>, job: Job, e: Edit, starts: Starts, kinds: map<string, JobKind>)
    requires ListOk(mem, starts, kinds) && JobFits(job, mem, kinds) && job.kind.SupportsAutomaticRetry()
    requires e.Requeue? && e.attempt == job.attempt + 1 && job.attempt < MAX_AUTO_ATTEMPTS
    ensures RetryOk(mem, job.id, e)
  {
    forall j | j in mem && j.id == job.id ensures j.kind == job.kind {
      assert JobOk(j, starts, kinds);
    }
  }

  lemma {:induction false} RecoveredLedger(s: System, w: Write)
    requires LedgerInv(s) && s.phase.Recovering?
    ensures LedgerInv(Recovered(s, w))
  {
    hide ListOk; hide StartsOk; hide SeenAfter; hide Updated; hide Tame;
    var Recovering(todo, seen, interrupted) := s.phase;
    if todo != [] && Judge(todo[0], seen, interrupted).Mark? {
      PlainUpdate(s.files, todo[0].id, Judge(todo[0], seen, interrupted).edit, s.now, w, s.starts, s.kinds);
    }
  }

  lemma {:induction false} MarkedIsCalm(s: System, w: Write)
    requires FilesOk(s.files, s.starts, s.kinds) && s.phase.Marking? && s.phase.listed != []
    ensures Calm(Marked(s, w).files, s.files, s.starts, s.kinds)
  {
    StillIsCalm(s.files, s.starts, s.kinds);
    PlainUpdate(s.files, s.phase.listed[0].id, Interrupt, s.now, w, s.starts, s.kinds);
    hide FilesOk; hide Calm; hide Updated;
  }

  lemma {:induction false} MarkedLedger(s: System, w: Write)
    requires LedgerInv(s) && s.phase.Marking? && s.phase.listed != []
    ensures LedgerInv(Marked(s, w))
  {
    MarkedIsCalm(s, w);
    hide FilesOk; hide StartsOk; hide Tame; hide Updated;
  }

  lemma {:induction false} GoneLedger(s: System, id: string, w: Write)
    requires LedgerInv(s) && s.phase.Down?
    ensures LedgerInv(s.(files := Updated(s.files, id, QueueUnavailable, s.now, w), unsent := s.unsent - {id}))
  {
    PlainUpdate(s.files, id, QueueUnavailable, s.now, w, s.starts, s.kinds);
    hide FilesOk; hide StartsOk; hide Tame; hide Updated;
  }

  lemma {:induction false} CrashedLedger(s: System)
    requires LedgerInv(s)
    ensures LedgerInv(Crashed(s))
  {
    ListIsDistinct(s.files.disk, s.starts, s.kinds);
    TruncatedFewer(s.files.disk);
    FewerKeepsList(Truncated(s.files.disk), s.files.disk, s.starts, s.kinds);
    hide ListOk; hide StartsOk; hide Truncated; hide RecoveryOrder; hide InterruptedKeys; hide DistinctIds; hide Fewer;
  }

  /** Every step keeps the bound on starts and the uniqueness of live transfer keys,
      in memory and in the file a crash would leave. */
  lemma {:induction false} LedgerStep(s: System, a: Action)
    requires LedgerInv(s) && Enabled(s, a)
    ensures LedgerInv(Step(s, a))
  {
    hide ListOk; hide StartsOk; hide Updated; hide Tame; hide Cleared; hide Archived; hide Inserted; hide Handled;
    hide Truncated;
    hide Committed; hide PopFrom; hide QueueAll; hide QueuePending; hide Finish; hide Without;
    hide Judged; hide Claimed; hide Recovered; hide Marked; hide Submitted; hide Crashed; hide Selected; hide JobFits;
    var starts, kinds := s.starts, s.kinds;
    if FilesOnly(a) {
      FilesOnlyIsCalm(s, a);
      TamePhase(s.phase, Step(s, a).files.mem, s.files.mem, kinds);
    } else {
      match a
      case Submit(id, kind, payload, priority, w) => SubmitLedger(s, id, kind, payload, priority, w);
      case Claim(w) => ClaimedLedger(s, s.phase.job, w);
      case Select(limits) => SelectedLedger(s, limits);
      case Join(i, outcome, w) => HandledIsCalm(s.files, s.tasks[i].id, outcome, s.now, w, starts, kinds);
      case DrainJoin(i, outcome, w) => HandledIsCalm(s.files, s.tasks[i].id, outcome, s.now, w, starts, kinds);
      case JudgeJob(guessed) => JudgedFits(s, guessed);
      case ClearError(w) => PlainUpdate(s.files, s.phase.id, Edit.ClearError, s.now, w, starts, kinds);
      case AttachClass(w) =>
        PlainUpdate(s.files, s.phase.failed.id, Edit.AttachClass(s.phase.error), s.now, w, starts, kinds);
        TameFits(s.phase.failed, Step(s, a).files.mem, s.files.mem, kinds);
      case Requeue(digest, w) => RequeuedLedger(s, digest, w);
      case RecoverNext(w) => RecoveredLedger(s, w);
      case MarkNext(w) => MarkedLedger(s, w);
      case QueueGone(id, w) => GoneLedger(s, id, w);
      case Crash => CrashedLedger(s);
      case _ =>
    }
  }

  lemma {:induction false} SelectedLedger(s: System, limits: Limits)
    requires LedgerInv(s) && s.phase.Serving?
    ensures LedgerInv(Selected(s, limits))
  {
    hide FilesOk; hide StartsOk; hide PopFrom; hide Ask;
  }

  lemma {:induction false} SubmitLedger(s: System, id: string, kind: JobKind, payload: Payload,
          priority: JobPriority, w: Write)
    requires LedgerInv(s) && id !in s.kinds && !s.phase.Recovering?
    ensures LedgerInv(Step(s, Submit(id, kind, payload, priority, w)))
  {
    var job := NewJob(id, kind, payload, priority, s.now);
    InsertIsCalm(s.files, job, w, s.starts, s.kinds);
    TamePhase(s.phase, Inserted(s.files, job, w).mem, s.files.mem, s.kinds);
    hide FilesOk; hide Inserted; hide Tame; hide Existing;
    MorePhase(s.phase, Inserted(s.files, job, w).mem, s.kinds, id, kind);
  }

  lemma {:induction false} MorePhase(p: Phase, mem: seq<Job>, kinds: map<string, JobKind>, id: string, kind: JobKind)
    requires PhaseFits(p, mem, kinds) && id !in kinds
    ensures PhaseFits(p, mem, kinds[id := kind])
  {
  }

  // --------------------------------------------------------------- the runs

  lemma {:induction false} RunKeepsLedger(s: System, run: seq<Action>)
    requires LedgerInv(s) && IsRun(s, run)
    ensures LedgerInv(Final(s, run))
    decreases |run|
  {
    hide LedgerInv; hide Step; hide Enabled;
    if run != [] {
      LedgerStep(s, run[0]);
      RunKeepsLedger(Step(s, run[0]), run[1..]);
    }
  }

  lemma {:induction false} BootLedger(disk: seq<Job>, archive: seq<Job>, kinds: map<string, JobKind>, now: int)
    requires ListOk(disk, map[], kinds)
    ensures LedgerInv(Boot(disk, archive, kinds, now))
  {
    TruncatedFewer(disk);
    FewerKeepsList(Truncated(disk), disk, map[], kinds);
    hide ListOk; hide Truncated; hide RecoveryOrder; hide InterruptedKeys; hide DistinctIds; hide Fewer;
  }

  lemma {:induction false} OnlyClaimsCount(s: System, a: Action)
    requires Enabled(s, a) && !a.Claim?
    ensures Step(s, a).starts == s.starts
  {
    hide Updated; hide Cleared; hide Archived; hide Inserted; hide Handled; hide Truncated; hide Committed;
    hide PopFrom;
    hide QueueAll; hide QueuePending; hide Finish; hide Without;
    hide Selected; hide Joined; hide Judged; hide Recovered; hide Crashed;
  }

  lemma {:induction false} ClaimCounts(s: System, job: Job, w: Write, id: string)
    ensures Count(Claimed(s, job, w).starts, id)
            == Count(s.starts, id) + if |Claimed(s, job, w).tasks| > |s.tasks| && job.id == id then 1 else 0
  {
    hide Updated; hide EditList; hide WithoutProbe; hide Start;
  }

  /** The history variable counts what it should. */
  lemma {:induction false} StepCounts(s: System, a: Action, id: string)
    requires Enabled(s, a)
    ensures Count(Step(s, a).starts, id) == Count(s.starts, id) + if StartedBy(s, a) == Some(id) then 1 else 0
  {
    hide Claimed; hide Count;
    if a.Claim? {
      ClaimCounts(s, s.phase.job, a.w, id);
    } else {
      OnlyClaimsCount(s, a);
    }
  }

  lemma {:induction false} StepKinds(s: System, a: Action)
    requires Enabled(s, a)
    ensures forall k :: k in s.kinds ==> k in Step(s, a).kinds && Step(s, a).kinds[k] == s.kinds[k]
  {
    hide Updated; hide Cleared; hide Archived; hide Inserted; hide Handled; hide Truncated; hide Committed;
    hide PopFrom;
    hide QueueAll; hide QueuePending; hide Finish; hide Without;
    hide Selected; hide Joined; hide Judged; hide Recovered; hide Crashed; hide EditList;
    if !a.Submit? {
      assert Step(s, a).kinds == s.kinds;
    }
  }

  lemma {:induction false} RunCounts(s: System, run: seq<Action>, id: string)
    requires IsRun(s, run)
    ensures Count(Final(s, run).starts, id) == Count(s.starts, id) + StartsIn(s, run, id)
    ensures forall k :: k in s.kinds ==> k in Final(s, run).kinds && Final(s, run).kinds[k] == s.kinds[k]
    decreases |run|
  {
    hide Step; hide Enabled; hide StartedBy;
    if run != [] {
      StepCounts(s, run[0], id);
      StepKinds(s, run[0]);
      RunCounts(Step(s, run[0]), run[1..], id);
    }
  }

  /** Over every run, with any number of crashes and restarts and whatever becomes of
      the writes, a transfer is started at most once and any other job at most
      three times. */
  lemma {:induction false} StartsAreBounded(disk: seq<Job>, archive: seq<Job>, kinds: map<string, JobKind>, now: int,
          run: seq<Action>, id: string)
    requires ListOk(disk, map[], kinds) && IsRun(Boot(disk, archive, kinds, now), run)
    ensures var s, n := Final(Boot(disk, archive, kinds, now), run), StartsIn(Boot(disk, archive, kinds, now), run, id);
            && n <= MAX_AUTO_ATTEMPTS
            && (n > 0 ==> id in s.kinds && (IsTransfer(s.kinds[id]) ==> n <= 1))
  {
    var boot := Boot(disk, archive, kinds, now);
    BootLedger(disk, archive, kinds, now);
    assert boot.starts == map[];
    hide Boot; hide ListOk; hide Final; hide IsRun; hide StartsIn;
    RunKeepsLedger(boot, run);
    RunCounts(boot, run, id);
    var s := Final(boot, run);
    assert Count(s.starts, id) > 0 ==> id in s.starts;
  }

  /** In no reachable state do two live jobs share a key if one of them is a transfer,
      on the list or in the file. */
  lemma {:induction false} TransferKeysStayDistinct(disk: seq<Job>, archive: seq<Job>, kinds: map<string, JobKind>,
          now: int, run: seq<Action>)
    requires ListOk(disk, map[], kinds) && IsRun(Boot(disk, archive, kinds, now), run)
    ensures var s := Final(Boot(disk, archive, kinds, now), run);
            && TransferKeysDistinct(s.files.mem) && TransferKeysDistinct(s.files.disk)
            && DistinctIds(s.files.mem) && DistinctIds(s.files.disk)
  {
    BootLedger(disk, archive, kinds, now);
    hide Boot; hide Final; hide IsRun; hide TransferKeysDistinct; hide DistinctIds;
    RunKeepsLedger(Boot(disk, archive, kinds, now), run);
  }
}
