/** Runs from an empty start, step by step: how far a single job gets when nothing else
    is going on. The other modules use them to show that what they warn of happens. */
module Scenario {
  import opened Options
  import opened JobModel
  import opened Store
  import opened Scheduler
  import opened Running
  import opened Reliability
  import opened Recovery
  import opened Ledger
  import opened Worker
  import opened Loop

  ghost predicate SchedIdle(sched: Sched) {
    SchedOk(sched) && sched.Jobs() == {} && sched.pending == {}
  }

  /** Open for business with nothing to do; all listed jobs are over. */
  ghost predicate Idle(s: System) {
    && s.phase.Serving? && s.tasks == [] && s.running == NOTHING_RUNNING && SchedIdle(s.sched)
    && s.files.mem == s.files.disk && DistinctIds(s.files.mem)
    && (forall j :: j in s.files.mem ==> IsTerminal(j) && j.id in s.kinds)
  }

  function With(f: Files, jobs: seq<Job>): Files {
    f.(mem := jobs, disk := jobs)
  }

  function AsRunning(job: Job, now: int): Job {
    job.(status := JobStatus.Running, startedAt := Some(now), updatedAt := now)
  }

  lemma {:induction false} BootIsIdle(now: int)
    ensures var boot := Boot([], [], map[], now); var t := Rested(Files([], [], []), Serving, now, map[], map[]);
            Enabled(boot, RecoverNext(Done)) && Step(boot, RecoverNext(Done)) == t && Idle(t) && boot.now == now
  {
    EmptyIsIdle();
    assert Truncated([]) == [];
    assert RecoveryOrder([]) == [];
  }

  lemma {:induction false} EmptyIsIdle()
    ensures SchedIdle(EMPTY_SCHED)
  {
  }

  /** The last job of a list is the one found by its id. */
  lemma {:induction false} LastIsFound(jobs: seq<Job>, job: Job, e: Edit, now: int)
    requires DistinctIds(jobs + [job])
    ensures Lookup(jobs + [job], job.id) == Some(job)
    ensures EditList(jobs + [job], job.id, e, now)
            == if EditJob(e, job, now).None? then None else Some(jobs + [EditJob(e, job, now).value.(updatedAt := now)])
  {
    var all := jobs + [job];
    var i := Find(all, job.id);
    assert all[|jobs|] == job;
    assert i == |jobs|;
    hide EditJob;
    if EditJob(e, job, now).Some? {
      assert all[|jobs| := EditJob(e, job, now).value.(updatedAt := now)]
        == jobs + [EditJob(e, job, now).value.(updatedAt := now)];
    }
  }

  lemma {:induction false} NewIsLast(jobs: seq<Job>, job: Job, kinds: map<string, JobKind>)
    requires DistinctIds(jobs) && job.id !in kinds && forall j :: j in jobs ==> IsTerminal(j) && j.id in kinds
    ensures Existing(jobs, job).None? && DistinctIds(jobs + [job])
  {
    forall j | j in jobs ensures j.id != job.id {
    }
    assert forall j :: j in jobs ==> !SameLiveKey(j, job);
  }

  /** Pushing one job onto an idle scheduler and popping it leaves it idle. */
  lemma {:induction false} PushThenPop(sched: Sched, job: Job, eligible: Job -> bool)
    requires SchedIdle(sched) && eligible(job)
    ensures PopFrom(PushTo(sched, job), eligible).0 == Some(job)
    ensures SchedIdle(PopFrom(PushTo(sched, job), eligible).1)
  {
    var full := PushTo(sched, job);
    PushKeepsSched(sched, job);
    PopKeepsSched(full, eligible);
    assert full.Jobs() == {job};
    var (popped, rest) := PopFrom(full, eligible);
    if popped.None? {
      HeadOfOne(full, job, eligible);
    }
    hide PushTo; hide PopFrom; hide SchedOk; hide Sched.Jobs; hide NoHeadEligible;
  }

  lemma {:induction false} HeadOfOne(s: Sched, job: Job, eligible: Job -> bool)
    requires SchedOk(s) && s.Jobs() == {job} && eligible(job)
    ensures !NoHeadEligible(s, eligible)
  {
    JobsByQueue(s, job);
    var p: JobPriority :| job in Held(s.Queue(p));
    var q := s.Queue(p);
    var a, i :| 0 <= a < |q| && 0 <= i < |q[a].jobs| && q[a].jobs[i] == job;
    assert QueueOk(q, p) && GroupOk(q[a], p);
    InHeld(q, a, 0);
    JobsByQueue(s, q[a].jobs[0]);
    assert q[a].jobs[0] in s.Jobs();
    assert HeadEligible(q[a], eligible);
  }

  predicate NoCrash(run: seq<Action>) {
    forall a :: a in run ==> !a.Crash?
  }

  predicate HasRoom(limits: Limits) {
    limits.global > 0 && forall c: JobClass :: limits.Of(c) > 0
  }

  /** The state in which just this job runs. */
  ghost predicate RunsAlone(t: System, s: System, job: Job) {
    && SchedIdle(t.sched)
    && t == s.(files := With(s.files, s.files.mem + [AsRunning(job, s.now)]), sched := t.sched, tasks := [job],
               running := Start(NOTHING_RUNNING, job), starts := s.starts[job.id := Count(s.starts, job.id) + 1],
               circuits := s.circuits.With(ClassOf(job), Ask(s.circuits.Of(ClassOf(job)), s.now)),
               kinds := s.kinds[job.id := job.kind], unsent := s.unsent + {job.id})
  }

  /** Submitted, scheduled, selected and claimed. */
  function StartRun(job: Job, limits: Limits): seq<Action> {
    [Submit(job.id, job.kind, job.payload, job.priority, Done), Absorb(job.id), Action.Select(limits),
      Action.Claim(Done)]
  }

  function Waiting(s: System, job: Job): System {
    s.(files := With(s.files, s.files.mem + [job]), kinds := s.kinds[job.id := job.kind], unsent := s.unsent + {job.id})
  }

  lemma {:induction false} SubmitAlone(s: System, job: Job)
    requires Idle(s) && |s.files.mem| < MAX_JOBS && job.id !in s.kinds
    requires job == NewJob(job.id, job.kind, job.payload, job.priority, s.now)
    ensures var a := Submit(job.id, job.kind, job.payload, job.priority, Done);
            Enabled(s, a) && Step(s, a) == Waiting(s, job) && DistinctIds(s.files.mem + [job])
  {
    NewIsLast(s.files.mem, job, s.kinds);
    hide Existing; hide SchedIdle; hide DistinctIds;
  }

  lemma {:induction false} AbsorbAlone(s: System, job: Job)
    requires Idle(s) && DistinctIds(s.files.mem + [job]) && job.status.Queued? && IsDue(job, s.now)
    ensures var t := Waiting(s, job);
            Enabled(t, Absorb(job.id)) && Step(t, Absorb(job.id)) == t.(sched := PushTo(s.sched, job))
  {
    LastIsFound(s.files.mem, job, Heartbeat, s.now);
    hide Lookup; hide SchedIdle; hide DistinctIds; hide PushTo; hide EditList;
  }

  function Chosen(s: System, job: Job, limits: Limits, sched: Sched): System {
    var c := ClassOf(job);
    Waiting(s, job).(sched := sched, circuits := s.circuits.With(c, Ask(s.circuits.Of(c), s.now)),
      phase := Claiming(job, limits))
  }

  lemma {:induction false} SelectedIs(t: System, limits: Limits, job: Job)
    requires t.phase.Serving? && PopFrom(t.sched, Eligible(t.running, limits, t.circuits, t.now)).0 == Some(job)
    ensures Enabled(t, Action.Select(limits))
    ensures Step(t, Action.Select(limits))
            == t.(sched := PopFrom(t.sched, Eligible(t.running, limits, t.circuits, t.now)).1,
                  circuits := t.circuits.With(ClassOf(job), Ask(t.circuits.Of(ClassOf(job)), t.now)),
                  phase := Claiming(job, limits))
  {
    hide PopFrom; hide Eligible; hide Ask; hide Circuits.With; hide Circuits.Of; hide ClassOf;
  }

  lemma {:induction false} SelectAlone(s: System, job: Job, limits: Limits) returns (sched: Sched)
    requires Idle(s) && HasRoom(limits) && Allows(s.circuits.Of(ClassOf(job)), s.now)
    ensures SchedIdle(sched)
    ensures var t := Waiting(s, job).(sched := PushTo(s.sched, job));
            Enabled(t, Action.Select(limits)) && Step(t, Action.Select(limits)) == Chosen(s, job, limits, sched)
  {
    var t := Waiting(s, job).(sched := PushTo(s.sched, job));
    EmptyAdmits(job, limits);
    var eligible := Eligible(s.running, limits, s.circuits, s.now);
    assert eligible(job);
    PushThenPop(s.sched, job, eligible);
    sched := PopFrom(t.sched, eligible).1;
    assert t.phase.Serving?;
    hide PushTo; hide PopFrom; hide SchedIdle; hide Eligible; hide CanStart; hide Allows; hide Ask; hide DistinctIds;
    hide Step; hide Enabled;
    hide Circuits.With; hide Circuits.Of; hide ClassOf;
    SelectedIs(t, limits, job);
  }

  lemma {:induction false} ClaimedIs(t: System, after: seq<Job>)
    requires t.phase.Claiming?
    requires EditList(t.files.mem, t.phase.job.id, Edit.Claim(t.phase.job.priority), t.now) == Some(after)
    ensures Enabled(t, Action.Claim(Done))
    ensures Step(t, Action.Claim(Done))
            == t.(files := With(t.files, after), phase := Serving, tasks := t.tasks + [t.phase.job],
                  running := Start(t.running, t.phase.job),
                    starts := t.starts[t.phase.job.id := Count(t.starts, t.phase.job.id) + 1])
  {
    hide EditList; hide Start;
  }

  lemma {:induction false} ClaimAlone(s: System, job: Job, limits: Limits, sched: Sched)
    requires Idle(s) && SchedIdle(sched) && DistinctIds(s.files.mem + [job]) && job.status.Queued?
    ensures var t := Chosen(s, job, limits, sched);
            Enabled(t, Action.Claim(Done)) && RunsAlone(Step(t, Action.Claim(Done)), s, job)
  {
    LastIsFound(s.files.mem, job, Edit.Claim(job.priority), s.now);
    ClaimedIs(Chosen(s, job, limits, sched), s.files.mem + [AsRunning(job, s.now)]);
    hide EditList; hide SchedIdle; hide DistinctIds; hide Start; hide Ask; hide Circuits.With; hide Circuits.Of;
    hide Lookup;
    hide Step; hide Enabled;
  }

  lemma {:induction false} JobStarts(s: System, job: Job, limits: Limits)
    requires Idle(s) && |s.files.mem| < MAX_JOBS && job.id !in s.kinds && HasRoom(limits)
    requires job == NewJob(job.id, job.kind, job.payload, job.priority, s.now)
    requires Allows(s.circuits.Of(ClassOf(job)), s.now)
    ensures IsRun(s, StartRun(job, limits)) && RunsAlone(Final(s, StartRun(job, limits)), s, job)
  {
    var run := StartRun(job, limits);
    SubmitAlone(s, job);
    AbsorbAlone(s, job);
    var sched := SelectAlone(s, job, limits);
    ClaimAlone(s, job, limits, sched);
    hide Step; hide Enabled; hide RunsAlone; hide Idle; hide Waiting; hide Chosen; hide Allows; hide DistinctIds;
    FourSteps(s, run[0], run[1], run[2], run[3]);
  }

  lemma {:induction false} EmptyAdmits(job: Job, limits: Limits)
    requires HasRoom(limits)
    ensures CanStart(NOTHING_RUNNING, job, limits)
  {
  }

  lemma {:induction false} FourSteps(s: System, a: Action, b: Action, c: Action, d: Action)
    requires Enabled(s, a) && Enabled(Step(s, a), b) && Enabled(Step(Step(s, a), b), c)
            && Enabled(Step(Step(Step(s, a), b), c), d)
    ensures IsRun(s, [a, b, c, d]) && Final(s, [a, b, c, d]) == Step(Step(Step(Step(s, a), b), c), d)
  {
    hide Step; hide Enabled; hide IsRun; hide Final;
    var s1 := Step(s, a);
    var s2 := Step(s1, b);
    var s3 := Step(s2, c);
    OneStep(s, a);
    OneStep(s1, b);
    OneStep(s2, c);
    OneStep(s3, d);
    RunJoins(s, [a], [b]);
    RunJoins(s, [a] + [b], [c]);
    RunJoins(s, [a] + [b] + [c], [d]);
    assert [a] + [b] + [c] + [d] == [a, b, c, d];
  }

  // ---------------------------------------------------------------- failing

  function AsFailed(job: Job, error: JobErrorClass, now: int): Job {
    AsRunning(job, now).(status := JobStatus.Failed, progress := 100, finishedAt := Some(now),
      errorClass := Some(error))
  }

  function FailRun(error: JobErrorClass): seq<Action> {
    [Join(0, Erred(error), Done), JudgeJob(error), Action.AttachClass(Done)]
  }

  /** The state in which the job that ran alone has failed and been judged. */
  function Over(s: System, t: System, job: Job, error: JobErrorClass, phase: Phase): System {
    var c := ClassOf(job);
    t.(files := With(s.files, s.files.mem + [AsFailed(job, error, s.now)]), tasks := [], running := NOTHING_RUNNING,
       circuits := t.circuits.With(c, Fail(t.circuits.Of(c), error, s.now)), phase := phase)
  }

  lemma {:induction false} StartThenFinish(job: Job)
    ensures Finish(Start(NOTHING_RUNNING, job), job) == NOTHING_RUNNING
  {
  }

  lemma {:induction false} JoinAlone(s: System, t: System, job: Job, error: JobErrorClass)
    requires Idle(s) && RunsAlone(t, s, job) && DistinctIds(s.files.mem + [job])
    ensures Enabled(t, Join(0, Erred(error), Done))
    ensures Step(t, Join(0, Erred(error), Done))
            == Over(s, t, job, error, Judging(job)).(circuits := t.circuits)
  {
    var r := AsRunning(job, s.now);
    SameIdsDistinct(s.files.mem, job, r);
    LastIsFound(s.files.mem, r, FailError(error), s.now);
    StartThenFinish(job);
    assert Without([job], 0) == [];
    hide EditList; hide SchedIdle; hide DistinctIds; hide Start; hide Finish; hide Without; hide Circuits.With;
    hide Circuits.Of; hide Lookup; hide Ask; hide Count;
  }

  lemma {:induction false} SameIdsDistinct(jobs: seq<Job>, a: Job, b: Job)
    requires DistinctIds(jobs + [a]) && a.id == b.id
    ensures DistinctIds(jobs + [b])
  {
    forall i, j | 0 <= i < j < |jobs + [b]| ensures (jobs + [b])[i].id != (jobs + [b])[j].id {
      assert (jobs + [a])[i].id != (jobs + [a])[j].id;
    }
  }

  lemma {:induction false} JudgeAlone(s: System, t: System, job: Job, error: JobErrorClass)
    requires DistinctIds(s.files.mem + [job]) && t.now == s.now
    ensures var u := Over(s, t, job, error, Judging(job)).(circuits := t.circuits);
            && Enabled(u, JudgeJob(error))
            && Step(u, JudgeJob(error)) == Over(s, t, job, error, Attaching(AsFailed(job, error, s.now), error))
  {
    var failed := AsFailed(job, error, s.now);
    SameIdsDistinct(s.files.mem, job, failed);
    LastIsFound(s.files.mem, failed, Heartbeat, s.now);
    assert ClassOf(failed) == ClassOf(job);
    hide Lookup; hide EditList; hide DistinctIds; hide Circuits.With; hide Circuits.Of; hide Fail; hide ClassOf;
  }

  lemma {:induction false} AttachAlone(s: System, t: System, job: Job, error: JobErrorClass)
    requires DistinctIds(s.files.mem + [job]) && t.now == s.now
    ensures var failed := AsFailed(job, error, s.now); var u := Over(s, t, job, error, Attaching(failed, error));
            && Enabled(u, Action.AttachClass(Done))
            && Step(u, Action.AttachClass(Done))
               == Over(s, t, job, error, if Retries(failed, error) then Requeueing(failed) else Serving)
  {
    var failed := AsFailed(job, error, s.now);
    SameIdsDistinct(s.files.mem, job, failed);
    LastIsFound(s.files.mem, failed, Edit.AttachClass(error), s.now);
    hide Lookup; hide EditList; hide DistinctIds; hide Circuits.With; hide Circuits.Of; hide Fail; hide ClassOf;
    hide Retries;
  }

  /** The job that runs alone fails; a transfer is then over for good. */
  lemma {:induction false} JobFails(s: System, t: System, job: Job, error: JobErrorClass)
    requires Idle(s) && RunsAlone(t, s, job) && DistinctIds(s.files.mem + [job])
    ensures var failed := AsFailed(job, error, s.now);
            && IsRun(t, FailRun(error))
            && Final(t, FailRun(error))
               == Over(s, t, job, error, if Retries(failed, error) then Requeueing(failed) else Serving)
  {
    var run := FailRun(error);
    assert t.now == s.now;
    JoinAlone(s, t, job, error);
    JudgeAlone(s, t, job, error);
    AttachAlone(s, t, job, error);
    hide Step; hide Enabled; hide Over; hide RunsAlone; hide Idle; hide DistinctIds; hide Retries; hide AsFailed;
    hide IsRun; hide Final;
    var t1 := Step(t, run[0]);
    var t2 := Step(t1, run[1]);
    OneStep(t, run[0]);
    OneStep(t1, run[1]);
    OneStep(t2, run[2]);
    RunJoins(t, [run[0]], [run[1]]);
    RunJoins(t, [run[0]] + [run[1]], [run[2]]);
    assert [run[0]] + [run[1]] + [run[2]] == run;
  }

  lemma {:induction false} NoCrashHere(job: Job, limits: Limits, error: JobErrorClass)
    ensures NoCrash(StartRun(job, limits) + FailRun(error))
  {
  }

  /** An idle program runs one transfer, which fails, and is idle again. */
  lemma {:induction false} TransferFails(s: System, job: Job, error: JobErrorClass, limits: Limits)
          returns (run: seq<Action>)
    requires Idle(s) && |s.files.mem| < MAX_JOBS && job.id !in s.kinds && HasRoom(limits) && IsTransfer(job.kind)
    requires job == NewJob(job.id, job.kind, job.payload, job.priority, s.now) && s.circuits.transfer.openedAt.None?
    ensures IsRun(s, run) && NoCrash(run) && Idle(Final(s, run))
    ensures var u := Final(s, run);
            && u.now == s.now && |u.files.mem| == |s.files.mem| + 1 && u.kinds == s.kinds[job.id := job.kind]
            && u.circuits.transfer == Fail(s.circuits.transfer, error, s.now)
  {
    JobStarts(s, job, limits);
    NewIsLast(s.files.mem, job, s.kinds);
    var t := Final(s, StartRun(job, limits));
    JobFails(s, t, job, error);
    var failed := AsFailed(job, error, s.now);
    assert !Retries(failed, error) && ClassOf(job) == Transfer;
    run := StartRun(job, limits) + FailRun(error);
    NoCrashHere(job, limits, error);
    RunJoins(s, StartRun(job, limits), FailRun(error));
    SameIdsDistinct(s.files.mem, job, failed);
    hide IsRun; hide Final; hide StartRun; hide FailRun; hide DistinctIds; hide SchedIdle; hide Fail; hide Start;
    var u := Over(s, t, job, error, Serving);
    forall j | j in u.files.mem ensures IsTerminal(j) && j.id in u.kinds {
      assert j == failed || j in s.files.mem;
    }
  }
}
