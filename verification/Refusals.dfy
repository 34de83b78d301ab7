/** Whole runs from an empty start, with saved writes only and no crash, in which the event
    timeline, listening from the start, refuses what a job has become. */
module Refusals {
  import opened Options
  import opened JobModel
  import opened Store
  import opened Running
  import opened Recovery
  import opened Worker
  import opened Bounded
  import opened Probe
  import opened Loop
  import opened Scenario
  import opened Events
  import opened Incidents

  /** Open for business, with nothing listed yet. */
  function Opened(now: int): System {
    Rested(Files([], [], []), Serving, now, map[], map[])
  }

  lemma {:induction false} LateAfter(s: System, before: seq<Action>, more: seq<Action>, id: string)
    requires IsRun(s, before) && IsRun(Final(s, before), more) && EverLate(Final(s, before), more, id)
    ensures IsRun(s, before + more) && EverLate(s, before + more, id)
    decreases |before|
  {
    hide Step; hide Enabled; hide IsLateStep;
    RunJoins(s, before, more);
    var run := before + more;
    if before == [] {
      assert run == more;
    } else {
      var t, rest := Step(s, before[0]), before[1..];
      assert run[0] == before[0] && run[1..] == rest + more;
      assert Final(s, before) == Final(t, rest);
      LateAfter(t, rest, more, id);
      LaterIsLate(s, run, id);
    }
  }

  lemma {:induction false} LaterIsLate(s: System, run: seq<Action>, id: string)
    requires IsRun(s, run) && run != [] && EverLate(Step(s, run[0]), run[1..], id)
    ensures EverLate(s, run, id)
  {
    hide Step; hide Enabled; hide IsLateStep;
  }

  /** Two updates of a job, the second an ending over its end. */
  lemma {:induction false} EndsLate(s: System, a: Action, b: Action, id: string)
    requires Enabled(s, a) && EditOf(s, a).Some? && Enabled(Step(s, a), b) && EditOf(Step(s, a), b).Some?
    requires IsLateStep(Step(s, a), b, id)
    ensures IsRun(s, [a, b]) && EverLate(s, [a, b], id) && Final(s, [a, b]).kinds == s.kinds
  {
    var t := Step(s, a);
    StepIsEdit(s, a);
    StepIsEdit(t, b);
    hide Step; hide Enabled; hide EditOf; hide IsLateStep;
    OneStep(s, a);
    OneStep(t, b);
    RunJoins(s, [a], [b]);
    assert [a] + [b] == [a, b] && [a, b][1..] == [b] && [b][1..] == [];
    assert EverLate(t, [b], id);
  }

  /** A run that ends a job over its end makes the timeline refuse, heard from the start. */
  lemma {:induction false} RefusedFromBoot(now: int, rest: seq<Action>, id: string)
    requires IsRun(Opened(now), rest) && NoCrash(rest) && EverLate(Opened(now), rest, id)
    requires Plain(id) && Final(Opened(now), rest).kinds.Keys == {id}
    ensures var run := [RecoverNext(Done)] + rest;
            IsRun(EmptyBoot(now), run) && NoCrash(run) && EverRefuses(EmptyBoot(now), run, map[], id)
  {
    var boot, idle := EmptyBoot(now), Opened(now);
    BootIsIdle(now);
    OneStep(boot, RecoverNext(Done));
    BootLedger([], [], map[], now);
    LedgerStep(boot, RecoverNext(Done));
    forall x | x in Final(idle, rest).kinds ensures Plain(x) {
      assert x in Final(idle, rest).kinds.Keys;
    }
    assert forall i :: 0 <= i < |rest| ==> !rest[i].Crash? by {
      assert forall i :: 0 <= i < |rest| ==> rest[i] in rest;
    }
    assert Follows(idle, map[], id);
    var run := [RecoverNext(Done)] + rest;
    assert run[0] == RecoverNext(Done) && run[1..] == rest;
    assert !Refuses(boot, RecoverNext(Done), map[], id) && After(boot, RecoverNext(Done), map[]) == map[];
    hide Step; hide Enabled; hide LedgerInv; hide Idle; hide EverLate; hide Final; hide Follows; hide Plain;
    hide Refuses;
    hide After; hide EmptyBoot;
    TimelineFollowsIff(idle, rest, map[], id);
    RunJoins(boot, [RecoverNext(Done)], rest);
  }

  function Scrape(id: string, payload: Payload, now: int): Job {
    NewJob(id, MetadataScrape, payload, Low, now)
  }

  /** Only the scrape runs. */
  ghost predicate ScrapeAlone(t: System, now: int, a: string, payload: Payload) {
    && t.phase.Serving? && t.kinds.Keys == {a}
    && t.files.mem == [AsRunning(Scrape(a, payload, now), now)]
    && Lookup(t.files.mem, a) == Some(AsRunning(Scrape(a, payload, now), now))
  }

  lemma {:induction false} OneIsFound(job: Job)
    ensures Lookup([job], job.id) == Some(job)
  {
  }

  lemma {:induction false} RunsAloneIs(t: System, now: int, a: string, payload: Payload)
    requires RunsAlone(t, Opened(now), Scrape(a, payload, now))
    ensures ScrapeAlone(t, now, a, payload)
  {
    var job := Scrape(a, payload, now);
    assert [] + [AsRunning(job, now)] == [AsRunning(job, now)];
    OneIsFound(AsRunning(job, now));
    hide SchedIdle; hide Lookup; hide Start; hide Reliability.Ask; hide Reliability.Circuits.With;
    hide Reliability.Circuits.Of;
  }

  lemma {:induction false} ScrapeStarts(now: int, a: string, payload: Payload, limits: Limits)
    requires HasRoom(limits)
    ensures var run := StartRun(Scrape(a, payload, now), limits);
            IsRun(Opened(now), run) && NoCrash(run) && ScrapeAlone(Final(Opened(now), run), now, a, payload)
  {
    var job := Scrape(a, payload, now);
    BootIsIdle(now);
    assert NoCrash(StartRun(job, limits));
    assert Reliability.Allows(Reliability.ALL_CLOSED.Of(ClassOf(job)), now);
    hide IsRun; hide Final; hide Idle; hide RunsAlone; hide ScrapeAlone; hide StartRun; hide Step; hide Enabled;
    hide Boot;
    hide Reliability.Allows; hide ClassOf; hide HasRoom;
    JobStarts(Opened(now), job, limits);
    RunsAloneIs(Final(Opened(now), StartRun(job, limits)), now, a, payload);
  }

  /** A run that gets to a late ending makes the timeline refuse. */
  lemma {:induction false} RefusedAfter(now: int, before: seq<Action>, last: seq<Action>, id: string)
    returns (run: seq<Action>)
    requires IsRun(Opened(now), before) && NoCrash(before) && Plain(id)
    requires var u := Final(Opened(now), before);
             && IsRun(u, last) && NoCrash(last) && EverLate(u, last, id) && Final(u, last).kinds.Keys == {id}
    ensures IsRun(EmptyBoot(now), run) && NoCrash(run) && EverRefuses(EmptyBoot(now), run, map[], id)
  {
    hide IsRun; hide Final; hide EverLate; hide EverRefuses; hide Plain; hide Opened; hide EmptyBoot;
    hide Step; hide Enabled;
    var u := Final(Opened(now), before);
    LateAfter(Opened(now), before, last, id);
    Append(Opened(now), before, u, last);
    RefusedFromBoot(now, before + last, id);
    run := [RecoverNext(Done)] + (before + last);
  }

  /** A running scrape is canceled, and its body finds its subscription missing. */
  lemma {:induction false} MissingRefused(now: int, a: string, payload: Payload, limits: Limits)
    returns (run: seq<Action>)
    requires HasRoom(limits) && Plain(a)
    ensures IsRun(EmptyBoot(now), run) && NoCrash(run) && EverRefuses(EmptyBoot(now), run, map[], a)
  {
    var start := StartRun(Scrape(a, payload, now), limits);
    ScrapeStarts(now, a, payload, limits);
    hide IsRun; hide Final; hide EverLate; hide EverRefuses; hide Plain; hide StartRun; hide Opened; hide EmptyBoot;
    hide Step; hide Enabled;
    var last := CancelsLate(Final(Opened(now), start), now, a, payload);
    run := RefusedAfter(now, start, last, a);
  }

  lemma {:induction false} CancelsLate(t: System, now: int, a: string, payload: Payload) returns (last: seq<Action>)
    requires ScrapeAlone(t, now, a, payload)
    ensures IsRun(t, last) && NoCrash(last) && EverLate(t, last, a) && Final(t, last).kinds.Keys == {a}
  {
    last := [CancelJob(a, Done), Report(a, FailMissing, Done)];
    CancelThenMissing(t, a);
    hide IsRun; hide Final; hide EverLate; hide Step; hide Lookup; hide IsLateStep;
    EndsLate(t, last[0], last[1], a);
  }

  function ShutDown(): seq<Action> {
    [BeginShutdown, Abort, BeginMarks]
  }

  lemma {:induction false} ShutdownSteps(t: System)
    ensures t.phase.Serving? ==> Enabled(t, BeginShutdown) && Step(t, BeginShutdown) == t.(phase := Draining)
    ensures t.phase.Draining? ==> Enabled(t, Abort) && Step(t, Abort) == t.(tasks := [])
    ensures t.phase.Draining? && t.tasks == [] ==>
              Enabled(t, BeginMarks) && Step(t, BeginMarks) == t.(phase := Marking(NewestFirst(t.files.mem)))
    ensures t.phase == Marking([]) ==> Enabled(t, Stop) && Step(t, Stop) == t.(phase := Down)
  {
    hide NewestFirst;
  }

  lemma {:induction false} MarksBegin(t: System, job: Job)
    requires t.phase.Serving? && t.files.mem == [job]
    ensures IsRun(t, ShutDown()) && Final(t, ShutDown()) == t.(phase := Marking([job]), tasks := [])
  {
    var t1, t2 := t.(phase := Draining), t.(phase := Draining, tasks := []);
    assert NewestFirst([job]) == [job];
    hide Step; hide Enabled; hide NewestFirst; hide IsRun; hide Final;
    ShutdownSteps(t);
    ShutdownSteps(t1);
    ShutdownSteps(t2);
    ThreeSteps(t, BeginShutdown, Abort, BeginMarks);
  }

  /** At shutdown a body succeeds between the listing and its mark. */
  lemma {:induction false} SuccessRefused(now: int, a: string, payload: Payload, limits: Limits)
    returns (run: seq<Action>)
    requires HasRoom(limits) && Plain(a)
    ensures IsRun(EmptyBoot(now), run) && NoCrash(run) && EverRefuses(EmptyBoot(now), run, map[], a)
  {
    var start := StartRun(Scrape(a, payload, now), limits);
    ScrapeStarts(now, a, payload, limits);
    var t := Final(Opened(now), start);
    MarksBegin(t, AsRunning(Scrape(a, payload, now), now));
    hide IsRun; hide Final; hide EverLate; hide EverRefuses; hide Plain; hide StartRun; hide Opened; hide EmptyBoot;
    hide Step; hide Enabled; hide Lookup;
    Append(Opened(now), start, t, ShutDown());
    var last := SucceedsLate(Final(t, ShutDown()), a);
    run := RefusedAfter(now, start + ShutDown(), last, a);
  }

  lemma {:induction false} SucceedsLate(u: System, a: string) returns (last: seq<Action>)
    requires u.phase.Marking? && u.phase.listed != [] && u.phase.listed[0].id == a && u.phase.listed[0].status.Running?
    requires Lookup(u.files.mem, a).Some? && Lookup(u.files.mem, a).value.status.Running? && u.kinds.Keys == {a}
    ensures IsRun(u, last) && NoCrash(last) && EverLate(u, last, a) && Final(u, last).kinds.Keys == {a}
  {
    last := [Report(a, Complete(true), Done), MarkNext(Done)];
    SuccessThenMark(u, a);
    assert Step(u, last[0]).phase == u.phase;
    hide IsRun; hide Final; hide EverLate; hide Step; hide Lookup; hide IsLateStep;
    EndsLate(u, last[0], last[1], a);
  }

  /** While the worker stops, a job is submitted; it is canceled before the failure of its
      wake-up is marked. */
  lemma {:induction false} GoneRefused(now: int, a: string, payload: Payload) returns (run: seq<Action>)
    requires Plain(a)
    ensures IsRun(EmptyBoot(now), run) && NoCrash(run) && EverRefuses(EmptyBoot(now), run, map[], a)
  {
    var stop := [BeginShutdown, BeginMarks, Submit(a, MetadataScrape, payload, Low, Done), Stop];
    StopsWith(now, a, payload);
    hide IsRun; hide Final; hide EverLate; hide EverRefuses; hide Plain; hide Opened; hide EmptyBoot;
    hide Step; hide Enabled; hide Lookup;
    var last := GoneLate(Final(Opened(now), stop), a);
    run := RefusedAfter(now, stop, last, a);
  }

  lemma {:induction false} GoneLate(u: System, a: string) returns (last: seq<Action>)
    requires u.phase.Down? && a in u.unsent && u.kinds.Keys == {a}
    requires Lookup(u.files.mem, a).Some? && Lookup(u.files.mem, a).value.status.Queued?
    ensures IsRun(u, last) && NoCrash(last) && EverLate(u, last, a) && Final(u, last).kinds.Keys == {a}
  {
    last := [CancelJob(a, Done), QueueGone(a, Done)];
    CancelThenGone(u, a);
    hide IsRun; hide Final; hide EverLate; hide Step; hide Lookup; hide IsLateStep;
    EndsLate(u, last[0], last[1], a);
  }

  lemma {:induction false} SubmitsOnly(s: System, a: string, payload: Payload)
    requires s.phase.Marking? && s.files == Files([], [], []) && a !in s.kinds
    ensures var submit := Submit(a, MetadataScrape, payload, Low, Done); var job := Scrape(a, payload, s.now);
            && Enabled(s, submit)
            && Step(s, submit)
               == s.(files := Files([job], [job], []), kinds := s.kinds[a := MetadataScrape], unsent := s.unsent + {a})
  {
    var job := Scrape(a, payload, s.now);
    assert [] + [job] == [job] && Truncated([job]) == [job];
  }

  lemma {:induction false} StopsWith(now: int, a: string, payload: Payload)
    ensures var stop := [BeginShutdown, BeginMarks, Submit(a, MetadataScrape, payload, Low, Done), Stop];
            && IsRun(Opened(now), stop)
            && var u := Final(Opened(now), stop);
               u.phase.Down? && a in u.unsent && u.kinds.Keys == {a}
                 && Lookup(u.files.mem, a) == Some(Scrape(a, payload, now))
  {
    var job := Scrape(a, payload, now);
    var s := Opened(now);
    var s1, s2 := s.(phase := Draining), s.(phase := Marking([]));
    var s3 := s2.(files := Files([job], [job], []), kinds := map[a := MetadataScrape], unsent := {a});
    assert NewestFirst([]) == [];
    assert Lookup([job], a) == Some(job);
    assert map[][a := MetadataScrape] == map[a := MetadataScrape] && {} + {a} == {a};
    hide Step; hide Enabled; hide Lookup; hide NewestFirst; hide IsRun; hide Final;
    ShutdownSteps(s);
    ShutdownSteps(s1);
    SubmitsOnly(s2, a, payload);
    ShutdownSteps(s3);
    FourSteps(s, BeginShutdown, BeginMarks, Submit(a, MetadataScrape, payload, Low, Done), Stop);
  }
}
