/** Shutting down while job bodies and API calls go on: what the marks achieve when
    anything may happen between the listing and each mark. */
module Shutdown {
  import opened JobModel
  import opened Store
  import opened Recovery
  import opened Worker
  import opened Bounded
  import opened Events
  import opened Keys
  import opened Loop

  /** Every job that still runs is due for a mark. */
  ghost predicate MarkDue(mem: seq<Job>, listed: seq<Job>) {
    forall j :: j in mem && j.status.Running? ==> exists l :: l in listed && l.id == j.id && l.status.Running?
  }

  ghost predicate Shut(s: System) {
    match s.phase
    case Marking(listed) => MarkDue(s.files.mem, listed)
    case Down => MarkDue(s.files.mem, [])
    case _ => false
  }

  /** The marks of this run are all saved, and neither the worker nor the program dies. */
  predicate MarksSaved(a: Action) {
    !a.Crash? && !a.KillWorker? && (a.MarkNext? ==> a.w.Done?)
  }

  // ------------------------------------------------------------ single steps

  /** Only a claim makes a job run. */
  lemma {:induction false} OnlyClaimsRun(e: Edit, job: Job, now: int)
    requires EditJob(e, job, now).Some? && !e.Claim? && EditJob(e, job, now).value.status.Running?
    ensures job.status.Running?
  {
    if !job.status.Running? {
      LifeOfAJob(e, job, now);
      hide EditJob;
    }
  }

  lemma {:induction false} EditDue(f: Files, id: string, e: Edit, now: int, w: Write, listed: seq<Job>)
    requires MarkDue(f.mem, listed) && DistinctIds(f.mem) && !e.Claim?
    ensures MarkDue(Updated(f, id, e, now, w).mem, listed)
  {
    if EditList(f.mem, id, e, now).Some? {
      EditedList(f.mem, id, e, now);
      var j := Lookup(f.mem, id).value;
      LookupIsListed(f.mem, id);
      var after := EditList(f.mem, id, e, now).value;
      forall x | x in after && x.status.Running? ensures exists l :: l in listed && l.id == x.id && l.status.Running? {
        if x.id == id {
          OnlyClaimsRun(e, j, now);
          assert j in f.mem;
        } else {
          assert x in f.mem;
        }
      }
    }
    hide EditList; hide EditJob; hide Lookup; hide DistinctIds;
  }

  /** A saved mark takes its job off the list of those still due. */
  lemma {:induction false} MarkIsSaved(f: Files, listed: seq<Job>, now: int)
    requires MarkDue(f.mem, listed) && DistinctIds(f.mem) && listed != []
    ensures var after := if listed[0].status.Running? then Updated(f, listed[0].id, Interrupt, now, Done).mem
            else f.mem;
            MarkDue(after, listed[1..])
  {
    var job := listed[0];
    assert forall l :: l in listed ==> l == job || l in listed[1..];
    if job.status.Running? {
      var i := Find(f.mem, job.id);
      if i < |f.mem| {
        EditedList(f.mem, job.id, Interrupt, now);
        var after := EditList(f.mem, job.id, Interrupt, now).value;
        assert Updated(f, job.id, Interrupt, now, Done).mem == after;
        hide EditList; hide DistinctIds; hide Lookup;
        forall x | x in after && x.status.Running?
          ensures exists l :: l in listed[1..] && l.id == x.id && l.status.Running?
        {
          assert x.id != job.id && x in f.mem;
        }
      } else {
        NotFound(f.mem, job.id);
        assert EditList(f.mem, job.id, Interrupt, now).None?;
        hide EditList; hide DistinctIds; hide Lookup;
        forall x | x in f.mem && x.status.Running?
          ensures exists l :: l in listed[1..] && l.id == x.id && l.status.Running?
        {
          assert x.id != job.id;
        }
      }
    }
  }

  lemma {:induction false} NotFound(jobs: seq<Job>, id: string)
    requires Find(jobs, id) == |jobs|
    ensures forall j :: j in jobs ==> j.id != id
  {
  }

  lemma {:induction false} FewerDue(after: seq<Job>, mem: seq<Job>, listed: seq<Job>)
    requires MarkDue(mem, listed) && forall j :: j in after ==> j in mem || !j.status.Running?
    ensures MarkDue(after, listed)
  {
  }

  lemma {:induction false} InsertDue(f: Files, job: Job, w: Write, listed: seq<Job>)
    requires MarkDue(f.mem, listed) && !job.status.Running?
    ensures MarkDue(Inserted(f, job, w).mem, listed)
  {
    if Existing(f.mem, job).None? {
      TruncatedFrom(f.mem + [job]);
      assert forall j :: j in f.mem + [job] ==> j in f.mem || j == job;
      FewerDue(Truncated(f.mem + [job]), f.mem, listed);
    }
    hide Existing; hide Truncated; hide MarkDue;
  }

  function Due(p: Phase): seq<Job> {
    if p.Marking? then p.listed else []
  }

  /** Only a mark and the stop move a worker that is past its tasks. */
  lemma {:induction false} PhaseStays(s: System, a: Action)
    requires (s.phase.Marking? || s.phase.Down?) && Enabled(s, a) && MarksSaved(a)
    ensures !a.MarkNext? ==>
            (Step(s, a).phase.Marking? || Step(s, a).phase.Down?) && Due(Step(s, a).phase) == Due(s.phase)
    ensures !a.Claim?
  {
    hide Updated; hide Lookup; hide Inserted; hide Archived; hide Cleared; hide Committed; hide QueueAll;
    hide QueuePending;
  }

  lemma {:induction false} MarkStep(s: System, a: Action)
    requires a.MarkNext? && a.w.Done? && Enabled(s, a) && DistinctIds(s.files.mem)
            && MarkDue(s.files.mem, s.phase.listed)
    ensures Step(s, a).phase.Marking? && MarkDue(Step(s, a).files.mem, Step(s, a).phase.listed)
  {
    MarkIsSaved(s.files, s.phase.listed, s.now);
    hide MarkDue; hide DistinctIds; hide Updated;
  }

  lemma {:induction false} EditStaysDue(s: System, a: Action, listed: seq<Job>)
    requires DistinctIds(s.files.mem) && Enabled(s, a) && EditOf(s, a).Some? && !a.Claim? && !a.RecoverNext?
    requires MarkDue(s.files.mem, listed)
    ensures MarkDue(Step(s, a).files.mem, listed)
  {
    StepIsEdit(s, a);
    OnlyClaimsClaim(s, a);
    var (id, e, w) := EditOf(s, a).value;
    hide Step; hide EditOf; hide Enabled; hide MarkDue; hide DistinctIds; hide Updated;
    EditDue(s.files, id, e, s.now, w, listed);
  }

  lemma {:induction false} SilentStaysDue(s: System, a: Action, listed: seq<Job>)
    requires LedgerInv(s) && Enabled(s, a) && EditOf(s, a).None? && !a.Submit? && !a.Crash?
    requires MarkDue(s.files.mem, listed)
    ensures MarkDue(Step(s, a).files.mem, listed)
  {
    SilentStep(s, a);
    hide Step; hide EditOf; hide Enabled; hide MarkDue; hide LedgerInv;
    FewerDue(Step(s, a).files.mem, s.files.mem, listed);
  }

  lemma {:induction false} ShutStep(s: System, a: Action)
    requires LedgerInv(s) && Shut(s) && Enabled(s, a) && MarksSaved(a)
    ensures Shut(Step(s, a))
  {
    LedgerIsDistinct(s);
    PhaseStays(s, a);
    ShutPhase(s, a);
    var due := Due(s.phase);
    assert MarkDue(s.files.mem, due);
    hide Step; hide EditOf; hide Enabled; hide LedgerInv; hide MarkDue; hide DistinctIds;
    if a.MarkNext? {
      MarkStep(s, a);
    } else if EditOf(s, a).Some? {
      EditStaysDue(s, a, due);
    } else if a.Submit? {
      SubmitDue(s, a, due);
    } else {
      SilentStaysDue(s, a, due);
    }
  }

  lemma {:induction false} ShutPhase(s: System, a: Action)
    requires Enabled(s, a) && (s.phase.Marking? || s.phase.Down?)
    ensures !a.RecoverNext? && (a.MarkNext? ==> s.phase.Marking?)
  {
  }

  lemma {:induction false} SubmitDue(s: System, a: Action, listed: seq<Job>)
    requires a.Submit? && Enabled(s, a) && MarkDue(s.files.mem, listed)
    ensures MarkDue(Step(s, a).files.mem, listed)
  {
    InsertDue(s.files, NewJob(a.id, a.kind, a.payload, a.priority, s.now), a.w, listed);
    hide MarkDue; hide Inserted;
  }

  lemma {:induction false} OnlyClaimsClaim(s: System, a: Action)
    requires Enabled(s, a) && EditOf(s, a).Some? && !a.Claim? && !a.RecoverNext?
    ensures !EditOf(s, a).value.1.Claim?
  {
  }

  // --------------------------------------------------------------- whole runs

  /** A shutdown whose marks are saved ends with no running job, whatever job bodies still
      report and the API is asked in the meantime. */
  lemma {:induction false} ShutdownLeavesNothingRunning(s: System, run: seq<Action>)
    requires LedgerInv(s) && Enabled(s, BeginMarks) && IsRun(Step(s, BeginMarks), run)
    requires forall a :: a in run ==> MarksSaved(a)
    requires Final(Step(s, BeginMarks), run).phase.Down?
    ensures forall j :: j in Final(Step(s, BeginMarks), run).files.mem ==> !j.status.Running?
  {
    var t := Step(s, BeginMarks);
    NewestHasAll(s.files.mem);
    LedgerStep(s, BeginMarks);
    hide LedgerInv; hide Step; hide NewestFirst; hide IsRun; hide Final;
    ShutThroughout(t, run);
  }

  lemma {:induction false} ShutThroughout(s: System, run: seq<Action>)
    requires LedgerInv(s) && Shut(s) && IsRun(s, run) && forall a :: a in run ==> MarksSaved(a)
    ensures Shut(Final(s, run))
    decreases |run|
  {
    hide LedgerInv; hide Shut; hide Step; hide Enabled; hide MarksSaved;
    if run != [] {
      LedgerStep(s, run[0]);
      ShutStep(s, run[0]);
      assert forall a :: a in run[1..] ==> a in run;
      ShutThroughout(Step(s, run[0]), run[1..]);
    }
  }
}
