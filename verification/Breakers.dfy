/** The breakers of the running worker: in every reachable state each class's breaker is what
    the run since the last crash has told it, read off the jobs themselves. */
module Breakers {
  import opened JobModel
  import opened Store
  import opened Scheduler
  import opened Running
  import opened Reliability
  import opened Recovery
  import opened Worker

  /** The kinds that share a breaker. */
  predicate Shares(kind: JobKind, c: JobClass) {
    match c
    case Transfer => kind.ManualTransfer? || kind.SubscriptionTransfer?
    case Metadata => kind.MetadataScrape?
    case Push => kind.PushDispatch?
  }

  /** What the listed job says of its own end: success, a failure of its class or, without
      one, of the class read off its texts, or nothing. */
  function Report(job: Job, guessed: JobErrorClass, now: int): Event {
    match job.status
    case Succeeded => Success
    case Failed => Failure(if job.errorClass.Some? then job.errorClass.value else guessed, now)
    case _ => Released
  }

  /** What one step tells the breaker of a class: it was asked for the job now in hand; the job
      in hand was not started after all; or the joined job has ended, as it is now listed. */
  function Told(s: System, a: Action, c: JobClass): seq<Event>
    requires Enabled(s, a)
  {
    match a
    case Select(_) =>
      var t := Step(s, a);
      if t.phase.Claiming? && Shares(t.phase.job.kind, c) then [Asked(s.now)] else []
    case Claim(_) =>
      if Shares(s.phase.job.kind, c) && Step(s, a).tasks == s.tasks then [Released] else []
    case JudgeJob(guessed) =>
      (match Lookup(s.files.mem, s.phase.job.id)
       case Some(job) => if Shares(job.kind, c) then [Report(job, guessed, s.now)] else []
       case None => [])
    case _ => []
  }

  /** What the class's breaker has been told since the last crash. */
  function Heard(s: System, run: seq<Action>, c: JobClass, before: seq<Event>): seq<Event>
    requires IsRun(s, run)
    decreases |run|
  {
    if run == [] then before
    else Heard(Step(s, run[0]), run[1..], c, if run[0].Crash? then [] else before + Told(s, run[0], c))
  }

  lemma {:induction false} ClassIsShared(job: Job, c: JobClass)
    ensures Shares(job.kind, c) <==> ClassOf(job) == c
  {
  }

  lemma {:induction false} OneTold(before: seq<Event>, e: Event)
    ensures After(before + [e]) == React(After(before), e)
    ensures After(before + []) == After(before)
  {
    assert (before + [e])[..|before|] == before;
    assert before + [] == before;
  }

  lemma {:induction false} WithAt(circuits: Circuits, c: JobClass, b: Breaker, d: JobClass)
    ensures circuits.With(c, b).Of(d) == if d == c then b else circuits.Of(d)
  {
  }

  /** Selecting, in parts: what is popped is in hand, and its breaker has been asked. */
  lemma {:induction false} SelectIs(s: System, limits: Limits)
    requires s.phase.Serving?
    ensures var popped := PopFrom(s.sched, Eligible(s.running, limits, s.circuits, s.now)).0;
            var t := Step(s, Action.Select(limits));
            && (popped.None? ==> t.circuits == s.circuits && t.phase.Serving?)
            && (popped.Some? ==>
                  var c := ClassOf(popped.value);
                  t.phase == Claiming(popped.value, limits)
                  && t.circuits == s.circuits.With(c, Ask(s.circuits.Of(c), s.now)))
  {
    hide PopFrom; hide Eligible; hide Circuits.With; hide Circuits.Of; hide ClassOf; hide Ask;
  }

  lemma {:induction false} SelectTells(s: System, limits: Limits, c: JobClass)
    requires s.phase.Serving?
    ensures var t := Step(s, Action.Select(limits));
            t.circuits.Of(c)
            == if t.phase.Claiming? && Shares(t.phase.job.kind, c) then React(s.circuits.Of(c), Asked(s.now))
               else s.circuits.Of(c)
  {
    SelectIs(s, limits);
    hide Step; hide Eligible; hide PopFrom; hide Circuits.With; hide Circuits.Of; hide ClassOf; hide Ask; hide Shares;
    var popped := PopFrom(s.sched, Eligible(s.running, limits, s.circuits, s.now)).0;
    if popped.Some? {
      ClassIsShared(popped.value, c);
      WithAt(s.circuits, ClassOf(popped.value), Ask(s.circuits.Of(ClassOf(popped.value)), s.now), c);
    }
  }

  lemma {:induction false} ClaimTells(s: System, w: Write, c: JobClass)
    requires s.phase.Claiming?
    ensures var t := Step(s, Action.Claim(w));
            t.circuits.Of(c)
            == if Shares(s.phase.job.kind, c) && t.tasks == s.tasks then React(s.circuits.Of(c), Released)
               else s.circuits.Of(c)
  {
    var job := s.phase.job;
    ClassIsShared(job, c);
    WithAt(s.circuits, ClassOf(job), s.circuits.Of(ClassOf(job)).(probe := false), c);
    assert |s.tasks + [job]| > |s.tasks|;
    hide EditList; hide Updated; hide Circuits.With; hide Circuits.Of; hide ClassOf; hide Shares; hide Start;
  }

  lemma {:induction false} JudgedTells(s: System, scheduled: Job, guessed: JobErrorClass)
    requires Lookup(s.files.mem, scheduled.id).Some?
    ensures var job := Lookup(s.files.mem, scheduled.id).value;
            Judged(s, scheduled, guessed).circuits
            == s.circuits.With(ClassOf(job), React(s.circuits.Of(ClassOf(job)), Report(job, guessed, s.now)))
  {
    hide Lookup; hide Circuits.With; hide Circuits.Of; hide ClassOf; hide Fail;
  }

  lemma {:induction false} JudgeTells(s: System, guessed: JobErrorClass, c: JobClass)
    requires s.phase.Judging?
    ensures Step(s, JudgeJob(guessed)).circuits.Of(c)
            == match Lookup(s.files.mem, s.phase.job.id)
               case Some(job) =>
                 if Shares(job.kind, c) then React(s.circuits.Of(c), Report(job, guessed, s.now)) else s.circuits.Of(c)
               case None => s.circuits.Of(c)
  {
    assert Step(s, JudgeJob(guessed)) == Judged(s, s.phase.job, guessed);
    hide Step;
    if Lookup(s.files.mem, s.phase.job.id).Some? {
      var job := Lookup(s.files.mem, s.phase.job.id).value;
      var told := React(s.circuits.Of(ClassOf(job)), Report(job, guessed, s.now));
      JudgedTells(s, s.phase.job, guessed);
      ClassIsShared(job, c);
      WithAt(s.circuits, ClassOf(job), told, c);
      hide Judged;
    }
    hide Lookup; hide Circuits.With; hide Circuits.Of; hide ClassOf; hide Shares; hide React; hide Report;
  }

  /** No other step touches a breaker. */
  lemma {:induction false} OthersTellNothing(s: System, a: Action)
    requires Enabled(s, a) && !a.Select? && !a.Claim? && !a.JudgeJob? && !a.Crash?
    ensures Step(s, a).circuits == s.circuits
  {
    hide Updated; hide Lookup; hide EditList; hide SeenAfter; hide QueueAll; hide QueuePending; hide Archived;
    hide Cleared; hide Committed; hide Inserted; hide Truncated; hide Existing; hide Handled; hide Finish; hide Without;
    hide Carry; hide Judge; hide NewestFirst; hide Retries; hide RetryOf;
  }

  lemma {:induction false} BreakerStep(s: System, a: Action, c: JobClass, before: seq<Event>)
    requires Enabled(s, a) && s.circuits.Of(c) == After(before)
    ensures Step(s, a).circuits.Of(c) == After(if a.Crash? then [] else before + Told(s, a, c))
  {
    OneTold(before, Asked(s.now));
    OneTold(before, Released);
    if a.Select? {
      SelectTells(s, a.limits, c);
    } else if a.Claim? {
      ClaimTells(s, a.w, c);
    } else if a.JudgeJob? {
      JudgeTells(s, a.guessed, c);
      if Lookup(s.files.mem, s.phase.job.id).Some? {
        OneTold(before, Report(Lookup(s.files.mem, s.phase.job.id).value, a.guessed, s.now));
      }
    } else if a.Crash? {
      CrashCloses(s, c);
    } else {
      OthersTellNothing(s, a);
    }
    hide Step; hide After; hide React; hide Report; hide Lookup; hide Shares; hide Circuits.Of;
  }

  lemma {:induction false} CrashCloses(s: System, c: JobClass)
    ensures Step(s, Crash).circuits.Of(c) == After([])
  {
    hide Truncated; hide Restart;
  }

  lemma {:induction false} BreakersFollow(s: System, run: seq<Action>, c: JobClass, before: seq<Event>)
    requires IsRun(s, run) && s.circuits.Of(c) == After(before)
    ensures Final(s, run).circuits.Of(c) == After(Heard(s, run, c, before))
    decreases |run|
  {
    hide Step; hide Enabled; hide After; hide Told; hide Circuits.Of;
    if run != [] {
      BreakerStep(s, run[0], c, before);
      BreakersFollow(Step(s, run[0]), run[1..], c, if run[0].Crash? then [] else before + Told(s, run[0], c));
    }
  }

  lemma {:induction false} BootIsClosed(disk: seq<Job>, archive: seq<Job>, kinds: map<string, JobKind>, now: int,
          c: JobClass)
    ensures Boot(disk, archive, kinds, now).circuits.Of(c) == After([])
  {
    hide Truncated; hide Restart;
  }

  /** A failure that may pass. */
  predicate MayPass(e: Event) {
    e.Failure? && (e.error.RateLimited? || e.error.Transient? || e.error.Internal? || e.error.TimedOut?)
  }

  /** The last three outcomes are failures that may pass. */
  ghost predicate ThreeFailed(o: seq<Event>) {
    |o| >= 3 && MayPass(o[|o| - 1]) && MayPass(o[|o| - 2]) && MayPass(o[|o| - 3])
  }

  lemma {:induction false} ThreeFailedIff(o: seq<Event>)
    ensures LastFailed(o, 3) <==> ThreeFailed(o)
  {
  }

  /** In every reachable state: a class's breaker is open exactly if the last three outcomes
      of its jobs since the last crash are failures that may pass, it is open since the last
      of them, and it lets a job through unless it is open and either a minute has not
      passed or a probe is out of which nothing has been heard. */
  lemma {:induction false} BreakersAreTheirRuns(disk: seq<Job>, archive: seq<Job>, kinds: map<string, JobKind>,
          now: int, run: seq<Action>, c: JobClass)
    requires IsRun(Boot(disk, archive, kinds, now), run)
    ensures var s := Final(Boot(disk, archive, kinds, now), run);
            var h := Heard(Boot(disk, archive, kinds, now), run, c, []);
            var o, b := Outcomes(h), s.circuits.Of(c);
            && b == After(h)
            && (b.openedAt.Some? <==> ThreeFailed(o))
            && (b.openedAt.Some? ==> b.openedAt.value == o[|o| - 1].at)
            && (b.probe <==> exists i: nat :: ProbeFrom(h, i))
            && (Allows(b, s.now) <==>
                  !ThreeFailed(o) || (s.now - o[|o| - 1].at >= 60 && !exists i: nat :: ProbeFrom(h, i)))
  {
    var boot := Boot(disk, archive, kinds, now);
    BootIsClosed(disk, archive, kinds, now, c);
    BreakersFollow(boot, run, c, []);
    var h := Heard(boot, run, c, []);
    BreakerIsItsHistory(h);
    AllowedMeans(h, Final(boot, run).now);
    ThreeFailedIff(Outcomes(h));
    hide Boot; hide Final; hide IsRun; hide Heard; hide After; hide Outcomes; hide ProbeFrom; hide LastFailed;
    hide ThreeFailed; hide Circuits.Of; hide Allows;
  }

  /** A job is selected only if its breaker lets it through. */
  lemma {:induction false} SelectedIsAllowed(s: System, limits: Limits, c: JobClass)
    requires SchedOk(s.sched) && s.phase.Serving?
    ensures var t := Step(s, Action.Select(limits));
            t.phase.Claiming? && Shares(t.phase.job.kind, c) ==> Allows(s.circuits.Of(c), s.now)
  {
    SelectIs(s, limits);
    var eligible := Eligible(s.running, limits, s.circuits, s.now);
    hide Step; hide SchedOk; hide PopFrom; hide Sched.Jobs; hide NoHeadEligible; hide ClassOf; hide Shares; hide Allows;
    hide CanStart; hide Circuits.Of;
    PopKeepsSched(s.sched, eligible);
    var popped := PopFrom(s.sched, eligible).0;
    if popped.Some? {
      ClassIsShared(popped.value, c);
    }
  }
}
