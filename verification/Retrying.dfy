/** Which failures the program retries by itself, and that a retry comes back. */
module Retrying {
  import opened Options
  import opened JobModel
  import opened Store
  import opened Reliability
  import opened Ledger
  import opened Worker
  import opened Bounded
  import opened Crew
  import opened Timing
  import opened Loop
  import opened Events
  import opened Keys

  // ------------------------------------------------------------ what is retried

  /** Scrapes and pushes that have failed for the first or second time, of a class that may pass. */
  predicate IsRetried(job: Job, error: JobErrorClass) {
    && (job.kind.MetadataScrape? || job.kind.PushDispatch?)
    && (error.RateLimited? || error.Transient? || error.Internal? || error.TimedOut?)
    && job.attempt < 3
  }

  lemma {:induction false} RetriesAre(job: Job, error: JobErrorClass)
    ensures Retries(job, error) <==> IsRetried(job, error)
  {
  }

  lemma {:induction false} EditFinds(f: Files, id: string, e: Edit, now: int)
    requires Lookup(f.mem, id).Some? && EditJob(e, Lookup(f.mem, id).value, now).Some?
    ensures var edited := EditJob(e, Lookup(f.mem, id).value, now).value.(updatedAt := now);
            Lookup(Updated(f, id, e, now, Done).mem, id) == Some(edited)
  {
    EditedTo(f.mem, id, e, now);
    hide Lookup; hide EditList;
  }

  /** A joined job that is listed as failed, once reliability has dealt with it: its class, its
      own or the one read off its texts, is kept if that write is saved; and whatever became
      of it, if the next is saved, the job is queued again, for the next attempt, exactly if
      it is one to retry. */
  lemma {:induction false} FailureIsRetriedIff(s: System, guessed: JobErrorClass, digest: nat, w1: Write)
    requires s.phase.Judging? && Lookup(s.files.mem, s.phase.job.id).Some?
    requires Lookup(s.files.mem, s.phase.job.id).value.status.Failed?
    ensures var id, failed := s.phase.job.id, Lookup(s.files.mem, s.phase.job.id).value;
            var error := if failed.errorClass.Some? then failed.errorClass.value else guessed;
            var t := Concluded(s, guessed, digest, w1, Done);
            && t.phase.Serving? && Lookup(t.files.mem, id).Some?
            && var after := Lookup(t.files.mem, id).value;
               && after.errorClass == (if w1.Done? then Some(error) else failed.errorClass)
               && (after.status.Queued? <==> IsRetried(failed, error))
               && (after.status.Queued? ==>
                     after.attempt == failed.attempt + 1 && after.nextAttemptAt.Some?
                     && s.now < after.nextAttemptAt.value <= s.now + 300)
               && (!after.status.Queued? ==> after.status.Failed? && after.attempt == failed.attempt)
  {
    var id, failed := s.phase.job.id, Lookup(s.files.mem, s.phase.job.id).value;
    var error := if failed.errorClass.Some? then failed.errorClass.value else guessed;
    LookupIsListed(s.files.mem, id);
    hide Lookup; hide Updated; hide RetryOf; hide IsRetried; hide Concluded;
    ConcludedFailure(s, failed, guessed, digest, w1);
    AttachedThenRetried(s.files, id, failed, error, digest, s.now, w1);
  }

  /** What is written of a failed job. */
  lemma {:induction false} ConcludedFailure(s: System, failed: Job, guessed: JobErrorClass, digest: nat, w1: Write)
    requires s.phase.Judging? && Lookup(s.files.mem, s.phase.job.id) == Some(failed) && failed.status.Failed?
    requires failed.id == s.phase.job.id
    ensures var error := if failed.errorClass.Some? then failed.errorClass.value else guessed;
            var g := Updated(s.files, failed.id, Edit.AttachClass(error), s.now, w1);
            var t := Concluded(s, guessed, digest, w1, Done);
            && t.phase.Serving?
            && t.files == if IsRetried(failed, error)
               then Updated(g, failed.id, RetryOf(failed, digest, s.now), s.now, Done)
                          else g
  {
    var error := if failed.errorClass.Some? then failed.errorClass.value else guessed;
    var t := Judged(s, s.phase.job, guessed);
    assert t.phase == Attaching(failed, error) && t.files == s.files && t.now == s.now;
    RetriesAre(failed, error);
    hide Judged; hide Lookup; hide Updated; hide RetryOf; hide Retries; hide IsRetried;
  }

  lemma {:induction false} AttachedThenRetried(f: Files, id: string, failed: Job, error: JobErrorClass, digest: nat,
          now: int, w1: Write)
    requires Lookup(f.mem, id) == Some(failed) && failed.status.Failed?
    ensures var g := Updated(f, id, Edit.AttachClass(error), now, w1);
            var h := Updated(g, id, RetryOf(failed, digest, now), now, Done);
            var kept := if w1.Done? then failed.(errorClass := Some(error), updatedAt := now) else failed;
            && Lookup(g.mem, id) == Some(kept)
            && Lookup(h.mem, id).Some?
            && var after := Lookup(h.mem, id).value;
               && after.status.Queued? && after.attempt == failed.attempt + 1 && after.errorClass == kept.errorClass
               && after.nextAttemptAt.Some? && now < after.nextAttemptAt.value <= now + 300
  {
    EditFinds(f, id, Edit.AttachClass(error), now);
    var g := Updated(f, id, Edit.AttachClass(error), now, w1);
    assert !w1.Done? ==> g.mem == f.mem by {
      hide EditList;
    }
    DelayRange(failed.attempt + 1, digest);
    EditFinds(g, id, RetryOf(failed, digest, now), now);
    hide Lookup; hide Updated; hide RetryDelay;
  }

  /** A joined job that is listed as succeeded is left with no class and no due time. */
  lemma {:induction false} SuccessIsCleared(s: System, guessed: JobErrorClass, digest: nat, w2: Write)
    requires s.phase.Judging? && Lookup(s.files.mem, s.phase.job.id).Some?
    requires Lookup(s.files.mem, s.phase.job.id).value.status.Succeeded?
    ensures var id := s.phase.job.id;
            var t := Concluded(s, guessed, digest, Done, w2);
            && t.phase.Serving? && Lookup(t.files.mem, id).Some?
            && Lookup(t.files.mem, id).value
               == Lookup(s.files.mem, id).value.(errorClass := None, nextAttemptAt := None, updatedAt := s.now)
  {
    var id := s.phase.job.id;
    LookupIsListed(s.files.mem, id);
    EditFinds(s.files, id, Edit.ClearError, s.now);
    assert Judged(s, s.phase.job, guessed).phase == Clearing(id);
    hide Lookup; hide Updated; hide Judged;
  }

  // -------------------------------------------------------- a retry comes back

  /** Wherever the id is listed or saved it is on this attempt or a later one, and on this
      attempt it is due by then. */
  ghost predicate DueBy(f: Files, id: string, n: nat, due: int) {
    forall j :: (j in f.mem || j in f.disk) && j.id == id ==>
      j.attempt >= n && (j.attempt == n ==> j.nextAttemptAt.None? || j.nextAttemptAt.value <= due)
  }

  lemma {:induction false} EditDueBy(e: Edit, job: Job, now: int)
    requires EditJob(e, job, now).Some? && (e.Requeue? ==> e.attempt > job.attempt)
    ensures var after := EditJob(e, job, now).value;
            after.attempt > job.attempt
            || (after.attempt == job.attempt && (after.nextAttemptAt.None? || after.nextAttemptAt == job.nextAttemptAt))
  {
  }

  lemma {:induction false} UpdateDueBy(f: Files, who: string, e: Edit, now: int, w: Write, id: string, n: nat, due: int)
    requires DueBy(f, id, n, due) && DistinctIds(f.mem)
    requires e.Requeue? ==> forall j :: j in f.mem && j.id == who ==> e.attempt > j.attempt
    ensures DueBy(Updated(f, who, e, now, w), id, n, due)
  {
    if EditList(f.mem, who, e, now).Some? {
      EditedList(f.mem, who, e, now);
      LookupIsListed(f.mem, who);
      EditDueBy(e, Lookup(f.mem, who).value, now);
    }
    hide EditList; hide EditJob; hide Lookup; hide DistinctIds;
  }

  lemma {:induction false} NoNewDueBy(g: Files, f: Files, id: string, n: nat, due: int)
    requires DueBy(f, id, n, due) && forall j :: j in g.mem || j in g.disk ==> j in f.mem || j in f.disk
    ensures DueBy(g, id, n, due)
  {
  }

  lemma {:induction false} SubmitDueBy(f: Files, job: Job, w: Write, id: string, n: nat, due: int)
    requires DueBy(f, id, n, due) && job.id != id
    ensures DueBy(Inserted(f, job, w), id, n, due)
  {
    if Existing(f.mem, job).None? {
      TruncatedFrom(f.mem + [job]);
      assert forall j :: j in f.mem + [job] ==> j == job || j in f.mem;
    }
    hide Existing; hide Truncated;
  }

  lemma {:induction false} RetryIsLater(s: System, a: Action)
    requires LedgerInv(s) && Enabled(s, a) && EditOf(s, a).Some?
    ensures var (who, e, w) := EditOf(s, a).value;
            e.Requeue? ==> forall j :: j in s.files.mem && j.id == who ==> e.attempt > j.attempt
  {
    if a.Requeue? {
      AttemptInHand(s);
    }
    hide LedgerInv;
  }

  /** No step but a later retry delays a retry. */
  lemma {:induction false} DueByStep(s: System, a: Action, id: string, n: nat, due: int)
    requires LedgerInv(s) && Enabled(s, a) && DueBy(s.files, id, n, due) && id in s.kinds
    ensures DueBy(Step(s, a).files, id, n, due) && id in Step(s, a).kinds
  {
    LedgerIsDistinct(s);
    StepKinds(s, a);
    hide LedgerInv; hide DueBy; hide DistinctIds; hide Updated; hide Truncated; hide RetryOf; hide Existing;
    if EditOf(s, a).Some? {
      StepIsEdit(s, a);
      RetryIsLater(s, a);
      var (who, e, w) := EditOf(s, a).value;
      UpdateDueBy(s.files, who, e, s.now, w, id, n, due);
    } else if a.Submit? {
      SubmitDueBy(s.files, NewJob(a.id, a.kind, a.payload, a.priority, s.now), a.w, id, n, due);
    } else if a.Crash? {
      TruncatedFewer(s.files.disk);
      NoNewDueBy(Step(s, a).files, s.files, id, n, due);
    } else {
      SilentStep(s, a);
      SilentDiskFrom(s, a);
      NoNewDueBy(Step(s, a).files, s.files, id, n, due);
    }
    hide Step; hide EditOf;
  }

  lemma {:induction false} DueByThroughout(s: System, run: seq<Action>, id: string, n: nat, due: int)
    requires LedgerInv(s) && CrewInv(s) && IsRun(s, run) && DueBy(s.files, id, n, due) && id in s.kinds
    ensures DueBy(Final(s, run).files, id, n, due) && LedgerInv(Final(s, run)) && CrewInv(Final(s, run))
    decreases |run|
  {
    hide LedgerInv; hide CrewInv; hide DueBy; hide Step; hide Enabled;
    if run != [] {
      LedgerStep(s, run[0]);
      CrewStep(s, run[0]);
      DueByStep(s, run[0], id, n, due);
      DueByThroughout(Step(s, run[0]), run[1..], id, n, due);
    }
  }

  lemma {:induction false} RetryIsDueBy(s: System, digest: nat)
    requires LedgerInv(s) && s.phase.Requeueing?
    requires Lookup(s.files.mem, s.phase.failed.id).Some? && Lookup(s.files.mem, s.phase.failed.id).value.status.Failed?
    ensures var job := Lookup(s.files.mem, s.phase.failed.id).value;
            && DueBy(Step(s, Action.Requeue(digest, Done)).files, job.id, job.attempt + 1, s.now + 300)
            && job.id in s.kinds
  {
    var id := s.phase.failed.id;
    AttemptInHand(s);
    LookupIsListed(s.files.mem, id);
    LedgerIsDistinct(s);
    KnownIds(s, Lookup(s.files.mem, id).value);
    assert Step(s, Action.Requeue(digest, Done)).files
           == Updated(s.files, id, RetryOf(s.phase.failed, digest, s.now), s.now, Done);
    hide Step; hide LedgerInv; hide Lookup; hide DistinctIds; hide RetryOf; hide DueBy;
    RetriedDueBy(s.files, s.phase.failed, digest, s.now);
  }

  lemma {:induction false} RetriedDueBy(f: Files, failed: Job, digest: nat, now: int)
    requires DistinctIds(f.mem) && Lookup(f.mem, failed.id).Some? && Lookup(f.mem, failed.id).value.status.Failed?
    ensures DueBy(Updated(f, failed.id, RetryOf(failed, digest, now), now, Done), failed.id, failed.attempt + 1,
            now + 300)
  {
    var e := RetryOf(failed, digest, now);
    EditedTo(f.mem, failed.id, e, now);
    EditedList(f.mem, failed.id, e, now);
    DelayRange(failed.attempt + 1, digest);
    hide EditList; hide Lookup; hide DistinctIds; hide RetryDelay;
  }

  lemma {:induction false} KnownIds(s: System, job: Job)
    requires LedgerInv(s) && job in s.files.mem
    ensures job.id in s.kinds
  {
    assert JobOk(job, s.starts, s.kinds);
  }

  /** The listed job is queued on this attempt. */
  predicate WaitsOn(mem: seq<Job>, id: string, n: nat) {
    Lookup(mem, id).Some? && Lookup(mem, id).value.status.Queued? && Lookup(mem, id).value.attempt == n
  }

  /** A wake-up schedules the job, and so does reconciling once nothing else is scheduled. */
  ghost predicate ComesBack(t: System, id: string) {
    && t.phase.Serving? && id in Step(t, Absorb(id)).sched.pending
    && (t.sched.pending == {} ==> id in Step(t, Reconcile).sched.pending)
  }

  lemma {:induction false} DueComesBack(t: System, id: string, n: nat, due: int)
    requires LedgerInv(t) && CrewInv(t) && DueBy(t.files, id, n, due)
    requires t.phase.Serving? && t.now >= due && WaitsOn(t.files.mem, id, n)
    ensures ComesBack(t, id)
  {
    LookupIsListed(t.files.mem, id);
    assert Enabled(t, Absorb(id)) && (t.sched.pending == {} ==> Enabled(t, Reconcile));
    hide Step; hide Enabled; hide LedgerInv; hide CrewInv; hide Lookup;
    WakeUpMeans(t, id);
    if t.sched.pending == {} {
      ReconcileFindsAll(t, id);
    }
  }

  /** A saved retry comes back: after any run, five minutes later, if the job is still queued
      on that attempt and the worker is serving. */
  lemma {:induction false} RetryComesBack(s: System, digest: nat, run: seq<Action>, n: nat)
    requires LedgerInv(s) && CrewInv(s) && s.phase.Requeueing?
    requires Lookup(s.files.mem, s.phase.failed.id).Some? && Lookup(s.files.mem, s.phase.failed.id).value.status.Failed?
    requires n == Lookup(s.files.mem, s.phase.failed.id).value.attempt + 1
    requires IsRun(Step(s, Action.Requeue(digest, Done)), run)
    ensures var t := Final(Step(s, Action.Requeue(digest, Done)), run);
            t.phase.Serving? && t.now >= s.now + 300 && WaitsOn(t.files.mem, s.phase.failed.id, n) ==>
              ComesBack(t, s.phase.failed.id)
  {
    var id, a := s.phase.failed.id, Action.Requeue(digest, Done);
    RetryIsDueBy(s, digest);
    LookupIsListed(s.files.mem, id);
    RetriedKinds(s, digest);
    hide Step; hide LedgerInv; hide CrewInv; hide IsRun; hide Final; hide Lookup; hide WaitsOn; hide ComesBack;
    hide DueBy;
    LedgerStep(s, a);
    CrewStep(s, a);
    DueByThroughout(Step(s, a), run, id, n, s.now + 300);
    var t := Final(Step(s, a), run);
    if t.phase.Serving? && t.now >= s.now + 300 && WaitsOn(t.files.mem, id, n) {
      DueComesBack(t, id, n, s.now + 300);
    }
  }

  lemma {:induction false} RetriedKinds(s: System, digest: nat)
    requires s.phase.Requeueing?
    ensures Enabled(s, Action.Requeue(digest, Done)) && Step(s, Action.Requeue(digest, Done)).kinds == s.kinds
  {
    hide Updated; hide RetryOf;
  }
}
