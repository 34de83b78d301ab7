/** The half-open probe of `src/jobs/worker.rs`: who holds it, when it leaks, and
    what a leaked probe does to its class. */
module Probe {
  import opened Options
  import opened JobModel
  import opened Store
  import opened Scheduler
  import opened Running
  import opened Reliability
  import opened Recovery
  import opened Ledger
  import opened Worker
  import opened Bounded
  import opened Crew

  /** The class of the job whose probe is still to be reported on. */
  function ClassInHand(p: Phase): Option<JobClass> {
    match p
    case Claiming(job, _) => Some(ClassOf(job))
    case Judging(job) => Some(ClassOf(job))
    case _ => None
  }

  ghost predicate RunsClass(tasks: seq<Job>, c: JobClass) {
    exists t :: t in tasks && ClassOf(t) == c
  }

  /** Someone is going to report on the class, or the breakers are no longer used. */
  ghost predicate Covered(s: System, c: JobClass) {
    Ending(s.phase) || RunsClass(s.tasks, c) || ClassInHand(s.phase) == Some(c)
  }

  ghost predicate ProbeInv(s: System) {
    forall c: JobClass :: s.circuits.Of(c).probe ==> s.circuits.Of(c).openedAt.Some? && Covered(s, c)
  }

  /** A judged job has been evicted, cleared or archived between its end and its judging. */
  predicate FindsNothing(s: System, a: Action) {
    a.JudgeJob? && s.phase.Judging? && Lookup(s.files.mem, s.phase.job.id).None?
  }

  lemma {:induction false} WithOf(circuits: Circuits, c: JobClass, b: Breaker, d: JobClass)
    ensures circuits.With(c, b).Of(d) == if d == c then b else circuits.Of(d)
  {
  }

  lemma {:induction false} SameClass(a: Job, b: Job)
    requires a.kind == b.kind
    ensures ClassOf(a) == ClassOf(b)
  {
  }

  /** What judging does to the breakers, by what it finds. */
  lemma {:induction false} JudgedCircuits(s: System, scheduled: Job, guessed: JobErrorClass, c: JobClass)
    requires CrewInv(s) && LedgerInv(s) && s.phase == Judging(scheduled)
    ensures var t := Judged(s, scheduled, guessed);
            && t.tasks == s.tasks && ClassInHand(t.phase).None? && Working(t.phase)
            && (Lookup(s.files.mem, scheduled.id).None? || c != ClassOf(scheduled) ==>
               t.circuits.Of(c) == s.circuits.Of(c))
            && (Lookup(s.files.mem, scheduled.id).Some? && c == ClassOf(scheduled) ==> !t.circuits.Of(c).probe)
  {
    if Lookup(s.files.mem, scheduled.id).Some? {
      var job := Lookup(s.files.mem, scheduled.id).value;
      LookupIsListed(s.files.mem, scheduled.id);
      ListedIsKnown(s.files.mem, job, s.starts, s.kinds);
      SameClass(job, scheduled);
      forall b: Breaker
        ensures s.circuits.With(ClassOf(job), b).Of(c) == if c == ClassOf(job) then b else s.circuits.Of(c)
      {
        WithOf(s.circuits, ClassOf(job), b, c);
      }
    }
    hide ClassOf; hide Circuits.With; hide Circuits.Of; hide Lookup; hide CrewInv; hide LedgerInv;
  }

  lemma {:induction false} SelectedProbe(s: System, limits: Limits)
    requires ProbeInv(s) && s.phase.Serving?
    ensures ProbeInv(Selected(s, limits))
  {
    var eligible := Eligible(s.running, limits, s.circuits, s.now);
    var popped := PopFrom(s.sched, eligible).0;
    var t := Selected(s, limits);
    if popped.Some? {
      var c := ClassOf(popped.value);
      forall d: JobClass | t.circuits.Of(d).probe ensures t.circuits.Of(d).openedAt.Some? && Covered(t, d) {
        WithOf(s.circuits, c, Ask(s.circuits.Of(c), s.now), d);
      }
    }
    hide PopFrom; hide Circuits.With; hide Circuits.Of;
  }

  lemma {:induction false} ClaimedProbe(s: System, job: Job, limits: Limits, w: Write)
    requires ProbeInv(s) && s.phase == Claiming(job, limits)
    ensures ProbeInv(Claimed(s, job, w))
  {
    var t := Claimed(s, job, w);
    var c := ClassOf(job);
    hide EditList; hide Updated; hide Start; hide Circuits.With; hide Circuits.Of; hide ClassOf; hide Count;
    forall d: JobClass | t.circuits.Of(d).probe ensures t.circuits.Of(d).openedAt.Some? && Covered(t, d) {
      WithOf(s.circuits, c, s.circuits.Of(c).(probe := false), d);
      if t.tasks == s.tasks + [job] {
        assert RunsClass(s.tasks, d) ==> RunsClass(t.tasks, d);
        assert job in t.tasks;
      }
    }
  }

  lemma {:induction false} JoinedProbe(s: System, i: nat, outcome: Outcome, w: Write, next: Phase)
    requires ProbeInv(s) && i < |s.tasks|
    requires (next == Judging(s.tasks[i]) && s.phase.Serving?) || next == Draining
    ensures ProbeInv(Joined(s, i, outcome, w, next))
  {
    var t := Joined(s, i, outcome, w, next);
    hide Handled; hide Finish; hide Circuits.Of; hide ClassOf;
    forall d: JobClass | t.circuits.Of(d).probe ensures t.circuits.Of(d).openedAt.Some? && Covered(t, d) {
      if RunsClass(s.tasks, d) && next.Judging? {
        var x :| x in s.tasks && ClassOf(x) == d;
        var k :| 0 <= k < |s.tasks| && s.tasks[k] == x;
        assert k < i ==> t.tasks[k] == x;
        assert k > i ==> t.tasks[k - 1] == x;
      }
    }
  }

  /** A step that leaves tasks and breakers alone and does not put a job out of hand. */
  lemma {:induction false} BystanderProbe(s: System, t: System)
    requires ProbeInv(s) && t.circuits == s.circuits && t.tasks == s.tasks
    requires t.phase == s.phase || Ending(t.phase) || (ClassInHand(s.phase).None? && !Ending(s.phase))
    ensures ProbeInv(t)
  {
    hide Circuits.Of; hide RunsClass;
    forall c: JobClass | t.circuits.Of(c).probe ensures t.circuits.Of(c).openedAt.Some? && Covered(t, c) {
    }
  }

  /** Every step keeps each probe with a running task of its class, unless the job it
      judges is no longer listed. */
  lemma {:induction false} ProbeStep(s: System, a: Action)
    requires CrewInv(s) && LedgerInv(s) && ProbeInv(s) && Enabled(s, a) && !FindsNothing(s, a)
    ensures ProbeInv(Step(s, a))
  {
    hide CrewInv; hide LedgerInv; hide ProbeInv; hide Updated; hide Cleared; hide Archived; hide Inserted; hide Handled;
    hide Truncated; hide Committed; hide PopFrom; hide QueueAll; hide QueuePending; hide Finish; hide Without;
    hide Start;
    hide Judged; hide Claimed; hide Crashed; hide Selected; hide Joined; hide Lookup; hide Dropped; hide RetryOf;
    hide Carry; hide SeenAfter; hide Retries;
    var t := Step(s, a);
    match a
    case Select(limits) => SelectedProbe(s, limits);
    case Claim(w) => ClaimedProbe(s, s.phase.job, s.phase.limits, w);
    case Join(i, outcome, w) => JoinedProbe(s, i, outcome, w, Judging(s.tasks[i]));
    case DrainJoin(i, outcome, w) => JoinedProbe(s, i, outcome, w, Draining);
    case JudgeJob(guessed) => JudgeKeepsProbeIff(s, guessed);
    case Crash => CrashedProbe(s);
    case Abort => AbortedProbe(s);
    case KillWorker => KilledProbe(s);
    case _ => BystanderProbe(s, t);
  }

  lemma {:induction false} CrashedProbe(s: System)
    ensures ProbeInv(Crashed(s))
  {
    hide Truncated; hide Restart;
  }

  lemma {:induction false} KilledProbe(s: System)
    requires ProbeInv(s)
    ensures ProbeInv(s.(tasks := [], phase := Down))
  {
    hide Circuits.Of;
    forall c: JobClass | s.circuits.Of(c).probe ensures s.circuits.Of(c).openedAt.Some? {
    }
  }

  lemma {:induction false} AbortedProbe(s: System)
    requires ProbeInv(s) && s.phase.Draining?
    ensures ProbeInv(s.(tasks := []))
  {
    hide Circuits.Of;
    forall c: JobClass | s.circuits.Of(c).probe ensures s.circuits.Of(c).openedAt.Some? {
    }
  }

  /** The step of `apply_reliability` keeps the probes covered exactly when the job is
      still listed, or holds no probe, or shares its class with another running task. */
  lemma {:induction false} JudgeKeepsProbeIff(s: System, guessed: JobErrorClass)
    requires CrewInv(s) && LedgerInv(s) && ProbeInv(s) && s.phase.Judging?
    ensures var job := s.phase.job;
            ProbeInv(Judged(s, job, guessed)) <==>
              || Lookup(s.files.mem, job.id).Some?
              || !s.circuits.Of(ClassOf(job)).probe
              || RunsClass(s.tasks, ClassOf(job))
  {
    var job := s.phase.job;
    forall c: JobClass
      ensures JudgedAs(s, Judged(s, job, guessed), ClassOf(job), Lookup(s.files.mem, job.id).Some?, c)
    {
      JudgedCircuits(s, job, guessed, c);
    }
    hide Judged; hide CrewInv; hide LedgerInv; hide Lookup; hide ClassOf; hide JudgedAs;
    JudgedProbeIff(s, Judged(s, job, guessed), ClassOf(job), Lookup(s.files.mem, job.id).Some?);
  }

  ghost predicate JudgedAs(s: System, t: System, d: JobClass, found: bool, c: JobClass) {
    && t.tasks == s.tasks && ClassInHand(t.phase).None? && Working(t.phase)
    && (!found || c != d ==> t.circuits.Of(c) == s.circuits.Of(c))
    && (found && c == d ==> !t.circuits.Of(c).probe)
  }

  lemma {:induction false} JudgedProbeIff(s: System, t: System, d: JobClass, found: bool)
    requires ProbeInv(s) && s.phase.Judging? && ClassOf(s.phase.job) == d
            && forall c: JobClass :: JudgedAs(s, t, d, found, c)
    ensures ProbeInv(t) <==> found || !s.circuits.Of(d).probe || RunsClass(s.tasks, d)
  {
    hide Circuits.Of; hide RunsClass; hide ClassOf;
    assert JudgedAs(s, t, d, found, d);
    if ProbeInv(t) {
      assert t.circuits.Of(d).probe ==> Covered(t, d);
    }
    if found || !s.circuits.Of(d).probe || RunsClass(s.tasks, d) {
      forall c: JobClass | t.circuits.Of(c).probe ensures t.circuits.Of(c).openedAt.Some? && Covered(t, c) {
        assert JudgedAs(s, t, d, found, c);
      }
    }
  }

  // --------------------------------------------------------------- the runs

  /** Every judged job of the run is still listed when its turn comes. */
  ghost predicate FindsAll(s: System, run: seq<Action>)
    requires IsRun(s, run)
    decreases |run|
  {
    run != [] ==> !FindsNothing(s, run[0]) && FindsAll(Step(s, run[0]), run[1..])
  }

  /** No probe leaks in a run that finds every job it judges. */
  lemma {:induction false} NoProbeLeaks(s: System, run: seq<Action>)
    requires CrewInv(s) && LedgerInv(s) && ProbeInv(s) && IsRun(s, run) && FindsAll(s, run)
    ensures ProbeInv(Final(s, run))
    decreases |run|
  {
    hide LedgerInv; hide CrewInv; hide ProbeInv; hide Step; hide Enabled; hide FindsNothing;
    if run != [] {
      LedgerStep(s, run[0]);
      CrewStep(s, run[0]);
      ProbeStep(s, run[0]);
      NoProbeLeaks(Step(s, run[0]), run[1..]);
    }
  }

  /** The step judges a job no longer listed, whose class has a probe out and no other task. */
  ghost predicate Leaks(s: System, a: Action) {
    && FindsNothing(s, a)
    && s.circuits.Of(ClassOf(s.phase.job)).probe && !RunsClass(s.tasks, ClassOf(s.phase.job))
  }

  ghost predicate AlwaysCovered(s: System, run: seq<Action>)
    requires IsRun(s, run)
    decreases |run|
  {
    ProbeInv(s) && (run != [] ==> AlwaysCovered(Step(s, run[0]), run[1..]))
  }

  ghost predicate EverLeaks(s: System, run: seq<Action>)
    requires IsRun(s, run)
    decreases |run|
  {
    run != [] && (Leaks(s, run[0]) || EverLeaks(Step(s, run[0]), run[1..]))
  }

  lemma {:induction false} ProbeStepIff(s: System, a: Action)
    requires CrewInv(s) && LedgerInv(s) && ProbeInv(s) && Enabled(s, a)
    ensures ProbeInv(Step(s, a)) <==> !Leaks(s, a)
  {
    if FindsNothing(s, a) {
      assert Step(s, a) == Judged(s, s.phase.job, a.guessed);
      hide LedgerInv; hide CrewInv; hide ProbeInv; hide Step; hide Enabled; hide Judged; hide RunsClass; hide ClassOf;
      hide Lookup; hide Circuits.Of;
      JudgeKeepsProbeIff(s, a.guessed);
    } else {
      hide LedgerInv; hide CrewInv; hide ProbeInv; hide Step; hide Enabled; hide FindsNothing;
      ProbeStep(s, a);
    }
  }

  /** Over any run, every set probe is covered in every state exactly if no step leaks one. */
  lemma {:induction false} ProbesLeakIff(s: System, run: seq<Action>)
    requires CrewInv(s) && LedgerInv(s) && ProbeInv(s) && IsRun(s, run)
    ensures AlwaysCovered(s, run) <==> !EverLeaks(s, run)
    decreases |run|
  {
    hide LedgerInv; hide CrewInv; hide ProbeInv; hide Step; hide Enabled; hide Leaks;
    if run != [] {
      var t := Step(s, run[0]);
      LedgerStep(s, run[0]);
      CrewStep(s, run[0]);
      ProbeStepIff(s, run[0]);
      if Leaks(s, run[0]) {
        assert !AlwaysCovered(t, run[1..]);
      } else {
        ProbesLeakIff(t, run[1..]);
      }
    }
  }

  // ------------------------------------------------------------- the wedge

  /** The class is open with its probe out, and nobody left to report on it. */
  ghost predicate Wedged(s: System, c: JobClass) {
    && s.circuits.Of(c).probe && s.circuits.Of(c).openedAt.Some?
    && !RunsClass(s.tasks, c) && ClassInHand(s.phase) != Some(c)
  }

  ghost predicate Stopped(s: System) {
    Ending(s.phase)
  }

  lemma {:induction false} SelectedWedge(s: System, limits: Limits, c: JobClass)
    requires Wedged(s, c) && SchedOk(s.sched) && s.phase.Serving?
    ensures Wedged(Selected(s, limits), c)
  {
    var eligible := Eligible(s.running, limits, s.circuits, s.now);
    PopKeepsSched(s.sched, eligible);
    hide PopFrom; hide SchedOk; hide Sched.Jobs; hide CanStart;
    var popped := PopFrom(s.sched, eligible).0;
    if popped.Some? {
      assert eligible(popped.value);
      var d := ClassOf(popped.value);
      assert d != c;
      WithOf(s.circuits, d, Ask(s.circuits.Of(d), s.now), c);
    }
    hide Circuits.With; hide Circuits.Of;
  }

  lemma {:induction false} ClaimedWedge(s: System, job: Job, limits: Limits, w: Write, c: JobClass)
    requires Wedged(s, c) && s.phase == Claiming(job, limits)
    ensures Wedged(Claimed(s, job, w), c)
  {
    WithOf(s.circuits, ClassOf(job), s.circuits.Of(ClassOf(job)).(probe := false), c);
    hide EditList; hide Updated; hide Start; hide Circuits.With; hide Circuits.Of; hide ClassOf; hide Count;
    var t := Claimed(s, job, w);
    assert forall x :: x in t.tasks ==> x in s.tasks || x == job;
  }

  lemma {:induction false} WithoutRuns(tasks: seq<Job>, i: nat, c: JobClass)
    requires i < |tasks| && !RunsClass(tasks, c)
    ensures !RunsClass(Without(tasks, i), c) && ClassOf(tasks[i]) != c
  {
    assert tasks[i] in tasks;
    assert forall x :: x in Without(tasks, i) ==> x in tasks;
  }

  /** Nothing short of a restart brings a wedged class back: the step keeps it wedged or
      stops the worker, and starts no job of the class. */
  lemma {:induction false} WedgeStep(s: System, a: Action, c: JobClass)
    requires CrewInv(s) && LedgerInv(s) && Enabled(s, a) && !a.Crash?
    requires Wedged(s, c) || Stopped(s)
    ensures Wedged(Step(s, a), c) || Stopped(Step(s, a))
  {
    hide CrewInv; hide LedgerInv; hide Updated; hide Cleared; hide Archived; hide Inserted; hide Handled;
    hide Truncated; hide Committed; hide PopFrom; hide QueueAll; hide QueuePending; hide Finish; hide Without;
    hide Start;
    hide Judged; hide Claimed; hide Selected; hide Lookup; hide Dropped; hide RetryOf; hide ClassOf;
    hide Carry; hide SeenAfter; hide Retries; hide Wedged; hide Joined;
    var t := Step(s, a);
    if Stopped(s) {
      StoppedStays(s, a);
    } else {
      match a
      case Select(limits) =>
        CrewHasSched(s);
        SelectedWedge(s, limits, c);
      case Claim(w) => ClaimedWedge(s, s.phase.job, s.phase.limits, w, c);
      case Join(i, outcome, w) => JoinedWedge(s, i, outcome, w, c);
      case JudgeJob(guessed) => JudgedWedge(s, guessed, c);
      case KillWorker =>
      case _ => BystanderWedge(s, t, c);
    }
  }

  lemma {:induction false} StoppedStays(s: System, a: Action)
    requires Enabled(s, a) && !a.Crash? && Stopped(s)
    ensures Stopped(Step(s, a))
  {
  }

  lemma {:induction false} BystanderWedge(s: System, t: System, c: JobClass)
    requires Wedged(s, c) && t.circuits == s.circuits && t.tasks == s.tasks
    requires t.phase == s.phase || ClassInHand(t.phase).None?
    ensures Wedged(t, c)
  {
  }

  lemma {:induction false} JoinedWedge(s: System, i: nat, outcome: Outcome, w: Write, c: JobClass)
    requires Wedged(s, c) && i < |s.tasks|
    ensures Wedged(Joined(s, i, outcome, w, Judging(s.tasks[i])), c)
  {
    WithoutRuns(s.tasks, i, c);
    hide Handled; hide Finish; hide Without; hide RunsClass; hide ClassOf; hide Circuits.Of;
  }

  lemma {:induction false} JudgedWedge(s: System, guessed: JobErrorClass, c: JobClass)
    requires CrewInv(s) && LedgerInv(s) && Wedged(s, c) && s.phase.Judging?
    ensures Wedged(Judged(s, s.phase.job, guessed), c)
  {
    JudgedCircuits(s, s.phase.job, guessed, c);
    hide Judged; hide CrewInv; hide LedgerInv; hide RunsClass; hide ClassOf; hide Circuits.Of;
  }

  lemma {:induction false} WedgeStarts(s: System, a: Action, c: JobClass)
    requires Enabled(s, a) && (Wedged(s, c) || Stopped(s))
    ensures StartedBy(s, a).Some? ==> ClassOf(s.phase.job) != c
  {
    hide Step;
  }

  lemma {:induction false} CrewHasSched(s: System)
    requires CrewInv(s)
    ensures SchedOk(s.sched)
  {
  }

  /** How many jobs of a class a run starts. */
  function ClassStarts(s: System, run: seq<Action>, c: JobClass): nat
    requires IsRun(s, run)
    decreases |run|
  {
    if run == [] then 0
    else
      var one := if StartedBy(s, run[0]).Some? && ClassOf(s.phase.job) == c then 1 else 0;
      one + ClassStarts(Step(s, run[0]), run[1..], c)
  }

  /** Once wedged, a class never runs again in this process. */
  lemma {:induction false} WedgedForGood(s: System, run: seq<Action>, c: JobClass)
    requires CrewInv(s) && LedgerInv(s) && IsRun(s, run) && (Wedged(s, c) || Stopped(s))
    requires forall i :: 0 <= i < |run| ==> !run[i].Crash?
    ensures ClassStarts(s, run, c) == 0
    decreases |run|
  {
    hide LedgerInv; hide CrewInv; hide Wedged; hide Stopped; hide Step; hide Enabled; hide StartedBy; hide ClassOf;
    if run != [] {
      WedgeStep(s, run[0], c);
      WedgeStarts(s, run[0], c);
      LedgerStep(s, run[0]);
      CrewStep(s, run[0]);
      WedgedForGood(Step(s, run[0]), run[1..], c);
    }
  }

  /** And a class does get wedged: the probe's job ends, finished jobs are cleared, and
      only then does the worker take the outcome in. */
  lemma {:induction false} ClearingWedges(s: System, i: nat, w2: Write, w3: Write, guessed: JobErrorClass)
    requires LedgerInv(s) && DistinctIds(s.tasks) && s.phase.Serving? && i < |s.tasks|
    requires s.circuits.Of(ClassOf(s.tasks[i])).probe && s.circuits.Of(ClassOf(s.tasks[i])).openedAt.Some?
    requires forall k :: 0 <= k < |s.tasks| && k != i ==> ClassOf(s.tasks[k]) != ClassOf(s.tasks[i])
    requires forall j :: j in s.files.mem && j.id == s.tasks[i].id ==> IsTerminal(j)
    ensures var run := [ClearJobs(Done, w2), Join(i, Finished, w3), JudgeJob(guessed)];
            IsRun(s, run) && Wedged(Final(s, run), ClassOf(s.tasks[i]))
  {
    var run := [ClearJobs(Done, w2), Join(i, Finished, w3), JudgeJob(guessed)];
    var s1 := Step(s, run[0]);
    ClearedLookup(s.files, w2, s.tasks[i].id);
    assert s1 == s.(files := Cleared(s.files, Done, w2));
    hide Cleared; hide Lookup; hide LedgerInv; hide ClassOf; hide Circuits.Of; hide DistinctIds; hide Wedged; hide Step;
    JudgedUnlisted(s1, i, w3, guessed);
    ThreeSteps(s, run[0], run[1], run[2]);
  }

  lemma {:induction false} JudgedUnlisted(s: System, i: nat, w: Write, guessed: JobErrorClass)
    requires s.phase.Serving? && i < |s.tasks| && Lookup(s.files.mem, s.tasks[i].id).None?
    requires s.circuits.Of(ClassOf(s.tasks[i])).probe && s.circuits.Of(ClassOf(s.tasks[i])).openedAt.Some?
    requires forall k :: 0 <= k < |s.tasks| && k != i ==> ClassOf(s.tasks[k]) != ClassOf(s.tasks[i])
    ensures var t := Step(s, Join(i, Finished, w));
            Enabled(t, JudgeJob(guessed)) && Wedged(Step(t, JudgeJob(guessed)), ClassOf(s.tasks[i]))
  {
    var job := s.tasks[i];
    var t := Step(Step(s, Join(i, Finished, w)), JudgeJob(guessed));
    hide Lookup; hide Finish; hide ClassOf; hide Circuits.Of;
    assert t.tasks == Without(s.tasks, i) && t.circuits == s.circuits && t.phase.Serving?;
    hide Step; hide Enabled;
    forall x | x in t.tasks ensures ClassOf(x) != ClassOf(job) {
      var k :| 0 <= k < |t.tasks| && t.tasks[k] == x;
      assert x == s.tasks[if k < i then k else k + 1];
    }
  }

  lemma {:induction false} ClearedLookup(f: Files, w2: Write, id: string)
    requires forall j :: j in f.mem && j.id == id ==> IsTerminal(j)
    ensures Lookup(Cleared(f, Done, w2).mem, id).None?
  {
    LiveTwice(f.mem);
    hide Live;
    var live := Cleared(f, Done, w2).mem;
    assert live == Live(f.mem);
    if Lookup(live, id).Some? {
      LookupIsListed(live, id);
    }
  }

  lemma {:induction false} ThreeSteps(s: System, a: Action, b: Action, c: Action)
    requires Enabled(s, a) && Enabled(Step(s, a), b) && Enabled(Step(Step(s, a), b), c)
    ensures IsRun(s, [a, b, c]) && Final(s, [a, b, c]) == Step(Step(Step(s, a), b), c)
  {
    hide Step; hide Enabled;
    var s1 := Step(s, a);
    var s2 := Step(s1, b);
    var s3 := Step(s2, c);
    assert [a, b, c][1..] == [b, c] && [b, c][1..] == [c] && [c][1..] == [];
    assert IsRun(s3, []) && Final(s3, []) == s3;
    assert IsRun(s2, [c]) && Final(s2, [c]) == s3;
    assert IsRun(s1, [b, c]) && Final(s1, [b, c]) == s3;
  }
}
