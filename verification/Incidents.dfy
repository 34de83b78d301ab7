/** Whole runs from an empty start in which a promise is broken, with saved writes only
    and no crash. */
module Incidents {
  import opened Options
  import opened JobModel
  import opened Store
  import opened Running
  import opened Reliability
  import opened Worker
  import opened Bounded
  import opened Probe
  import opened Loop
  import opened Scenario
  import opened Keys
  import opened Events

  function EmptyBoot(now: int): System {
    Boot([], [], map[], now)
  }

  lemma {:induction false} Append(s: System, run: seq<Action>, t: System, more: seq<Action>)
    requires IsRun(s, run) && Final(s, run) == t && IsRun(t, more)
    ensures IsRun(s, run + more) && Final(s, run + more) == Final(t, more)
  {
    RunJoins(s, run, more);
  }

  // ------------------------------------------------------ two jobs, one key

  /** A scrape has failed and is about to be retried. */
  lemma {:induction false} ScrapeAwaitsRetry(now: int, a: string, payload: Payload, limits: Limits)
          returns (run: seq<Action>)
    requires HasRoom(limits)
    ensures IsRun(EmptyBoot(now), run) && NoCrash(run) && AwaitsRetry(Final(EmptyBoot(now), run), now, a, payload)
  {
    var idle := Rested(Files([], [], []), Serving, now, map[], map[]);
    BootIsIdle(now);
    OneStep(EmptyBoot(now), RecoverNext(Done));
    var rest := IdleScrape(idle, now, a, payload, limits);
    hide IsRun; hide Final; hide AwaitsRetry; hide Step; hide Enabled; hide Idle; hide Boot;
    Append(EmptyBoot(now), [RecoverNext(Done)], idle, rest);
    run := [RecoverNext(Done)] + rest;
  }

  ghost predicate AwaitsRetry(u: System, now: int, a: string, payload: Payload) {
    var failed := AsFailed(NewJob(a, MetadataScrape, payload, Low, now), Transient, now);
    u.phase == Requeueing(failed) && u.files.mem == [failed] && u.kinds.Keys == {a}
  }

  lemma {:induction false} IdleScrape(idle: System, now: int, a: string, payload: Payload, limits: Limits)
          returns (run: seq<Action>)
    requires Idle(idle) && HasRoom(limits) && idle == Rested(Files([], [], []), Serving, now, map[], map[])
    ensures IsRun(idle, run) && NoCrash(run) && AwaitsRetry(Final(idle, run), now, a, payload)
  {
    var job := NewJob(a, MetadataScrape, payload, Low, now);
    JobStarts(idle, job, limits);
    NewIsLast([], job, map[]);
    NoCrashHere(job, limits, Transient);
    var started := Final(idle, StartRun(job, limits));
    JobFails(idle, started, job, Transient);
    assert Retries(AsFailed(job, Transient, now), Transient);
    assert AwaitsRetry(Final(started, FailRun(Transient)), now, a, payload);
    hide IsRun; hide Final; hide StartRun; hide FailRun; hide Start; hide Idle; hide AwaitsRetry; hide Rested;
    Append(idle, StartRun(job, limits), started, FailRun(Transient));
    run := StartRun(job, limits) + FailRun(Transient);
  }

  /** A scrape fails and is about to be retried; meanwhile the same scrape is submitted
      again, as its key is free; then the retry revives the first. */
  lemma {:induction false} RetryDuplicates(now: int, a: string, b: string, payload: Payload, digest: nat,
          limits: Limits)
    returns (run: seq<Action>)
    requires a != b && HasRoom(limits)
    ensures IsRun(EmptyBoot(now), run) && NoCrash(run) && !LiveKeysDistinct(Final(EmptyBoot(now), run).files.mem)
  {
    var before := ScrapeAwaitsRetry(now, a, payload, limits);
    var u := Final(EmptyBoot(now), before);
    assert b !in u.kinds.Keys;
    var last := SecondKey(u, AsFailed(NewJob(a, MetadataScrape, payload, Low, now), Transient, now), b, payload,
      digest);
    Append(EmptyBoot(now), before, u, last);
    run := before + last;
    hide IsRun; hide Final; hide LiveKeysDistinct; hide EmptyBoot;
  }

  lemma {:induction false} SecondKey(u: System, failed: Job, b: string, payload: Payload, digest: nat)
          returns (run: seq<Action>)
    requires u.phase == Requeueing(failed) && u.files.mem == [failed] && b != failed.id && b !in u.kinds
    requires failed.status.Failed? && failed.key == Some(KeyOf(MetadataScrape, payload))
    ensures IsRun(u, run) && NoCrash(run)
    ensures !LiveKeysDistinct(Final(u, run).files.mem)
  {
    var job := NewJob(b, MetadataScrape, payload, Low, u.now);
    var first, second := Submit(b, MetadataScrape, payload, Low, Done), Action.Requeue(digest, Done);
    var v := Step(u, first);
    var mem := [failed, job];
    assert Existing([failed], job).None? by {
      assert forall j :: j in [failed] ==> !SameLiveKey(j, job);
    }
    assert [failed] + [job] == mem;
    assert v.files.mem == mem && v.phase == u.phase;
    TwoListed(failed, job);
    ClashingRetry(v, failed, digest);
    hide LiveKeysDistinct; hide Lookup; hide Existing; hide Step; hide Clashes; hide IsRun; hide Final;
    OneStep(u, first);
    OneStep(v, second);
    RunJoins(u, [first], [second]);
    run := [first] + [second];
  }

  lemma {:induction false} ClashingRetry(v: System, failed: Job, digest: nat)
    requires v.phase == Requeueing(failed) && DistinctIds(v.files.mem) && LiveKeysDistinct(v.files.mem)
            && Clashes(v.files.mem, failed.id)
    ensures Enabled(v, Action.Requeue(digest, Done))
            && !LiveKeysDistinct(Step(v, Action.Requeue(digest, Done)).files.mem)
  {
    var e := RetryOf(failed, digest, v.now);
    RequeueKeepsKeysIff(v.files.mem, failed.id, e.attempt, e.dueAt, v.now);
    assert Step(v, Action.Requeue(digest, Done)).files == Updated(v.files, failed.id, e, v.now, Done);
    hide LiveKeysDistinct; hide EditList; hide DistinctIds; hide Lookup; hide RetryOf; hide Step;
  }

  lemma {:induction false} TwoListed(failed: Job, job: Job)
    requires failed.id != job.id && failed.status.Failed? && IsLive(job) && job.key.Some? && failed.key == job.key
    ensures DistinctIds([failed, job]) && LiveKeysDistinct([failed, job])
    ensures Lookup([failed, job], failed.id) == Some(failed) && Clashes([failed, job], failed.id)
  {
    assert job in [failed, job];
  }

  // ------------------------------------------------------------ a lost probe

  function Fresh(id: string, now: int): Job {
    NewJob(id, ManualTransfer, Payload("", None), High, now)
  }

  /** After `n` failures in a row the program is idle and the breaker has counted them. */
  ghost predicate HasFailed(t: System, now: int, n: nat, ids: set<string>, b: Breaker) {
    Idle(t) && t.now == now && |t.files.mem| == n && t.kinds.Keys == ids && t.circuits.transfer == b
  }

  lemma {:induction false} OneMoreFails(boot: System, before: seq<Action>, now: int, n: nat, ids: set<string>,
          b: Breaker,
          id: string, limits: Limits) returns (run: seq<Action>)
    requires IsRun(boot, before) && NoCrash(before) && HasFailed(Final(boot, before), now, n, ids, b)
    requires n < MAX_JOBS && id !in ids && b.openedAt.None? && HasRoom(limits)
    ensures IsRun(boot, run) && NoCrash(run)
            && HasFailed(Final(boot, run), now, n + 1, ids + {id}, Fail(b, Transient, now))
  {
    var s := Final(boot, before);
    assert id !in s.kinds.Keys;
    var more := TransferFails(s, Fresh(id, now), Transient, limits);
    assert Final(s, more).kinds.Keys == ids + {id};
    hide IsRun; hide Final; hide Idle; hide Fail;
    Append(boot, before, s, more);
    run := before + more;
  }

  /** Three transfers fail in a row: the breaker is open. */
  lemma {:induction false} ThreeFail(now: int, a: string, b: string, c: string, limits: Limits)
          returns (run: seq<Action>)
    requires a != b && b != c && a != c && HasRoom(limits)
    ensures IsRun(EmptyBoot(now), run) && NoCrash(run)
    ensures HasFailed(Final(EmptyBoot(now), run), now, 3, {a, b, c}, Breaker(3, Some(now), false))
  {
    var boot := EmptyBoot(now);
    BootIsIdle(now);
    OneStep(boot, RecoverNext(Done));
    run := [RecoverNext(Done)];
    assert HasFailed(Final(boot, run), now, 0, {}, CLOSED);
    hide IsRun; hide Final; hide HasFailed; hide EmptyBoot;
    run := OneMoreFails(boot, run, now, 0, {}, CLOSED, a, limits);
    run := OneMoreFails(boot, run, now, 1, {} + {a}, Breaker(1, None, false), b, limits);
    run := OneMoreFails(boot, run, now, 2, {} + {a} + {b}, Breaker(2, None, false), c, limits);
    assert {} + {a} + {b} + {c} == {a, b, c};
  }

  /** Only the probe runs. */
  ghost predicate ProbeAlone(t: System, now: int, d: string) {
    && t.phase.Serving? && t.tasks == [Fresh(d, now + 60)] && t.now == now + 60
    && t.circuits.transfer == Breaker(3, Some(now), true)
    && Lookup(t.files.mem, d) == Some(AsRunning(Fresh(d, now + 60), now + 60))
  }

  /** With the breaker open for a minute, the next transfer is the probe. */
  lemma {:induction false} ProbeStarts(s: System, now: int, d: string, limits: Limits)
    requires Idle(s) && s.now == now + 60 && |s.files.mem| < MAX_JOBS && d !in s.kinds && HasRoom(limits)
    requires s.circuits.transfer == Breaker(3, Some(now), false)
    ensures var run := StartRun(Fresh(d, now + 60), limits);
            IsRun(s, run) && NoCrash(run) && ProbeAlone(Final(s, run), now, d)
  {
    var job := Fresh(d, now + 60);
    JobStarts(s, job, limits);
    NewIsLast(s.files.mem, job, s.kinds);
    hide Idle; hide IsRun; hide Final;
    SameIdsDistinct(s.files.mem, job, AsRunning(job, s.now));
    LastIsFound(s.files.mem, AsRunning(job, s.now), Heartbeat, s.now);
    hide DistinctIds; hide EditList; hide Lookup;
  }

  lemma {:induction false} MinuteLater(s: System, now: int, ids: set<string>)
    requires HasFailed(s, now, 3, ids, Breaker(3, Some(now), false))
    ensures var t := s.(now := now + 60);
            && Enabled(s, Tick(now + 60)) && Step(s, Tick(now + 60)) == t
            && Idle(t) && |t.files.mem| == 3 && t.kinds.Keys == ids
            && t.circuits.transfer == Breaker(3, Some(now), false)
  {
    hide SchedIdle; hide DistinctIds;
  }

  /** A minute after three failures the next transfer is the probe, and runs. */
  lemma {:induction false} ProbeRuns(now: int, a: string, b: string, c: string, d: string, limits: Limits)
          returns (run: seq<Action>)
    requires a != b && b != c && a != c && d !in {a, b, c} && HasRoom(limits)
    ensures IsRun(EmptyBoot(now), run) && NoCrash(run) && ProbeAlone(Final(EmptyBoot(now), run), now, d)
  {
    var boot := EmptyBoot(now);
    var before := ThreeFail(now, a, b, c, limits);
    var s := Final(boot, before);
    var later := s.(now := now + 60);
    MinuteLater(s, now, {a, b, c});
    OneStep(s, Tick(now + 60));
    assert d !in later.kinds.Keys;
    hide IsRun; hide Final; hide Idle; hide Step; hide Enabled; hide HasFailed; hide ProbeAlone; hide StartRun;
    hide Boot;
    ProbeStarts(later, now, d, limits);
    var start := StartRun(Fresh(d, now + 60), limits);
    Append(s, [Tick(now + 60)], later, start);
    Append(boot, before, s, [Tick(now + 60)] + start);
    run := before + ([Tick(now + 60)] + start);
  }

  /** The probe's job succeeds, finished jobs are cleared, and only then is the outcome taken
      in: the class is wedged. */
  lemma {:induction false} ProbeLeaks(now: int, a: string, b: string, c: string, d: string, limits: Limits)
          returns (run: seq<Action>)
    requires a != b && b != c && a != c && d !in {a, b, c} && HasRoom(limits)
    ensures IsRun(EmptyBoot(now), run) && NoCrash(run) && Wedged(Final(EmptyBoot(now), run), Transfer)
  {
    var boot := EmptyBoot(now);
    var before := ProbeRuns(now, a, b, c, d, limits);
    var t := Final(boot, before);
    BootLedger([], [], map[], now);
    RunKeepsLedger(boot, before);
    var last := EndsCleared(t, d);
    Append(boot, before, t, last);
    run := before + last;
    hide IsRun; hide Final; hide Wedged; hide EmptyBoot;
  }

  lemma {:induction false} EndsCleared(t: System, d: string) returns (run: seq<Action>)
    requires LedgerInv(t) && t.phase.Serving? && |t.tasks| == 1 && t.tasks[0].id == d && ClassOf(t.tasks[0]) == Transfer
    requires t.circuits.transfer.probe && t.circuits.transfer.openedAt.Some?
    requires Lookup(t.files.mem, d).Some? && Lookup(t.files.mem, d).value.status.Running?
    ensures IsRun(t, run) && NoCrash(run) && Wedged(Final(t, run), Transfer)
  {
    var report := Report(d, Complete(true), Done);
    var u := Step(t, report);
    LedgerStep(t, report);
    ReportEnds(t, d);
    assert u.tasks == t.tasks && u.circuits == t.circuits && u.phase == t.phase;
    hide LedgerInv; hide Lookup; hide Step; hide ClassOf; hide Wedged;
    ClearingWedges(u, 0, Done, Done, Transient);
    var rest := [ClearJobs(Done, Done), Join(0, Finished, Done), JudgeJob(Transient)];
    OneStep(t, report);
    RunJoins(t, [report], rest);
    run := [report] + rest;
    hide IsRun; hide Final;
  }

  lemma {:induction false} ReportEnds(t: System, d: string)
    requires LedgerInv(t) && Lookup(t.files.mem, d).Some? && Lookup(t.files.mem, d).value.status.Running?
    ensures forall j :: j in Updated(t.files, d, Complete(true), t.now, Done).mem && j.id == d ==> IsTerminal(j)
  {
    ListIsDistinct(t.files.mem, t.starts, t.kinds);
    EditedTo(t.files.mem, d, Complete(true), t.now);
    EditedList(t.files.mem, d, Complete(true), t.now);
    hide Lookup; hide EditList; hide LedgerInv;
  }
}
