/** `JobQueue` of `src/jobs/queue.rs`: what the API may do to jobs, at any moment. */
module Api {
  import opened Options
  import opened JobModel
  import opened Store
  import opened Ledger
  import opened Scheduler
  import opened Worker
  import opened Bounded
  import opened Crew
  import opened Events
  import opened Loop
  import opened Scenario

  /** What a submission leaves behind: a new job whose wake-up finds the worker gone is
      marked as failed. */
  function Offered(f: Files, job: Job, w: Write, open: bool, now: int, w2: Write): Files {
    var g := Inserted(f, job, w);
    if Existing(f.mem, job).None? && w.Done? && !open then Updated(g, job.id, QueueUnavailable, now, w2) else g
  }

  datatype Answer = Accepted(job: Job) | Refused

  class JobQueue {
    const store: JobStore
    var shuttingDown: bool

    ghost predicate Valid()
      reads this, store
    {
      store.Valid()
    }

    constructor (store: JobStore)
      requires store.Valid()
      ensures Valid() && this.store == store && !shuttingDown && store.View() == old(store.View())
    {
      this.store, shuttingDown := store, false;
    }

    method Shutdown()
      modifies this
      ensures shuttingDown
    {
      shuttingDown := true;
    }

    /** A live job with the same key is returned instead of a new one; `open` is whether the
        worker still receives wake-ups, `w2` the fate of the mark if it does not. */
    method Submit(id: string, kind: JobKind, payload: Payload, priority: JobPriority, now: int, w: Write, open: bool,
            w2: Write)
            returns (answer: Answer)
      requires Valid()
      modifies store
      ensures Valid()
      ensures shuttingDown ==> answer == Refused && store.View() == old(store.View())
      ensures !shuttingDown ==>
                store.View() == Offered(old(store.View()), NewJob(id, kind, payload, priority, now), w, open, now, w2)
      ensures !shuttingDown ==>
                match Existing(old(store.jobs), NewJob(id, kind, payload, priority, now))
                case Some(live) => answer == Accepted(live)
                case None =>
                  answer == if w.Done? && open then Accepted(NewJob(id, kind, payload, priority, now)) else Refused
    {
      hide Existing; hide Truncated; hide BuildIndex; hide EditList; hide Lookup;
      if shuttingDown {
        return Refused;
      }
      var added := store.AddIdempotent(NewJob(id, kind, payload, priority, now), w);
      match added {
        case Created(job) =>
          if !open {
            var _ := store.UpdateIf(id, QueueUnavailable, now, w2);
            return Refused;
          }
          return Accepted(job);
        case Deduplicated(job) => return Accepted(job);
        case NotSaved => return Refused;
      }
    }

    /** A queued job can be canceled, and a running scrape; the answer is the job as it then is. */
    method Cancel(id: string, now: int, w: Write) returns (answer: Answer)
      requires Valid()
      modifies store
      ensures Valid() && store.View() == Updated(old(store.View()), id, Edit.Cancel, now, w)
      ensures var job := Lookup(old(store.jobs), id);
              answer == if w.Done? && job.Some?
                           && (job.value.status.Queued?
                              || (job.value.status.Running? && job.value.kind.MetadataScrape?))
                        then Accepted(CanceledJob(job.value, now)) else Refused
      ensures answer.Accepted? ==> Lookup(store.jobs, id) == Some(answer.job)
    {
      hide BuildIndex;
      CanceledIsListed(store.jobs, id, now);
      hide EditList; hide Lookup;
      var updated := store.UpdateIf(id, Edit.Cancel, now, w);
      return if updated.Some? then Accepted(updated.value) else Refused;
    }

    /** Only a queued job takes a new priority; `open` is whether the worker still receives
        wake-ups, without which the saved priority is answered with an error. */
    method SetPriority(id: string, priority: JobPriority, now: int, w: Write, open: bool) returns (answer: Answer)
      requires Valid()
      modifies store
      ensures Valid() && store.View() == Updated(old(store.View()), id, Reprioritize(priority), now, w)
      ensures var job := Lookup(old(store.jobs), id);
              answer == if w.Done? && open && job.Some? && job.value.status.Queued?
                        then Accepted(job.value.(priority := priority, updatedAt := now)) else Refused
      ensures answer.Accepted? ==> Lookup(store.jobs, id) == Some(answer.job)
    {
      hide BuildIndex;
      PriorityIsListed(store.jobs, id, priority, now);
      hide EditList; hide Lookup;
      var updated := store.UpdateIf(id, Reprioritize(priority), now, w);
      return if updated.Some? && open then Accepted(updated.value) else Refused;
    }

    /** A user's retry is a new submission of a failed or canceled job; `saved` is whether a
        manual transfer with save options already saved files. */
    method Retry(id: string, saved: bool, freshId: string, now: int, w: Write, open: bool, w2: Write)
            returns (answer: Answer)
      requires Valid() && DistinctIds(store.jobs)
      modifies store
      ensures Valid()
      ensures var job := Lookup(old(store.jobs), id);
              if shuttingDown || job.None? || (job.value.kind.ManualTransfer? && saved)
                 || !(job.value.status.Failed? || job.value.status.Canceled?)
              then answer == Refused && store.View() == old(store.View())
              else store.View()
                   == Offered(old(store.View()),
                              NewJob(freshId, job.value.kind, job.value.payload, job.value.priority, now), w, open, now,
                                w2)
    {
      hide BuildIndex; hide Existing; hide Truncated; hide DistinctIds; hide Lookup; hide NewJob; hide Offered;
      var job := store.Get(id);
      if job.None? {
        return Refused;
      }
      if job.value.kind.ManualTransfer? && saved {
        return Refused;
      }
      match job.value.status {
        case Failed =>
          answer := Submit(freshId, job.value.kind, job.value.payload, job.value.priority, now, w, open, w2);
        case Canceled =>
          answer := Submit(freshId, job.value.kind, job.value.payload, job.value.priority, now, w, open, w2);
        case _ =>
          return Refused;
      }
    }
  }

  /** A new submission: queued, on its first attempt, with what was asked for, keyed by its
      kind and payload, and nothing else. */
  lemma {:induction false} NewJobMeans(id: string, kind: JobKind, payload: Payload, priority: JobPriority, now: int)
    ensures var job := NewJob(id, kind, payload, priority, now);
            && job.id == id && job.kind == kind && job.payload == payload && job.priority == priority
            && job.status.Queued? && job.attempt == 1 && job.progress == 0
            && job.key == Some(kind.Name() + ":" + payload.text)
            && job.createdAt == now && job.updatedAt == now && job.startedAt.None? && job.finishedAt.None?
            && job.nextAttemptAt.None? && job.errorClass.None?
  {
  }

  function CanceledJob(job: Job, now: int): Job {
    job.(status := JobStatus.Canceled, progress := 100, finishedAt := Some(now), updatedAt := now)
  }

  lemma {:induction false} CanceledIsListed(jobs: seq<Job>, id: string, now: int)
    ensures var after, job := EditList(jobs, id, Edit.Cancel, now), Lookup(jobs, id);
            if job.Some? && (job.value.status.Queued? || (job.value.status.Running? && job.value.kind.MetadataScrape?))
            then after.Some? && Lookup(after.value, id) == Some(CanceledJob(job.value, now))
            else after.None?
  {
    if Lookup(jobs, id).Some? {
      EditedTo(jobs, id, Edit.Cancel, now);
    }
  }

  lemma {:induction false} PriorityIsListed(jobs: seq<Job>, id: string, priority: JobPriority, now: int)
    ensures var after, job := EditList(jobs, id, Reprioritize(priority), now), Lookup(jobs, id);
            if job.Some? && job.value.status.Queued?
            then after.Some? && Lookup(after.value, id) == Some(job.value.(priority := priority, updatedAt := now))
            else after.None?
  {
    if Lookup(jobs, id).Some? {
      EditedTo(jobs, id, Reprioritize(priority), now);
    }
  }

  /** A new priority takes effect with its wake-up: a job that is due is then scheduled as it
      is listed, with the new priority. */
  lemma {:induction false} PriorityTakesEffect(s: System, id: string, priority: JobPriority)
    requires LedgerInv(s) && CrewInv(s) && s.phase.Serving?
    requires Lookup(s.files.mem, id).Some? && Lookup(s.files.mem, id).value.status.Queued?
    requires var due := Lookup(s.files.mem, id).value.nextAttemptAt; due.None? || due.value <= s.now
    ensures var t := Step(s, Action.SetPriority(id, priority, Done));
            var sched := Step(t, Absorb(id)).sched;
            id in sched.pending
              && Lookup(s.files.mem, id).value.(priority := priority, updatedAt := s.now) in sched.Jobs()
  {
    var a := Action.SetPriority(id, priority, Done);
    PriorityIsListed(s.files.mem, id, priority, s.now);
    var t := Step(s, a);
    var job := Lookup(s.files.mem, id).value.(priority := priority, updatedAt := s.now);
    assert t.files.mem == EditList(s.files.mem, id, Reprioritize(priority), s.now).value && t.phase == s.phase
      && t.now == s.now;
    hide EditList;
    LookupIsListed(t.files.mem, id);
    LedgerStep(s, a);
    CrewStep(s, a);
    hide Step; hide LedgerInv; hide CrewInv; hide Lookup; hide Sched.Jobs;
    WakeUpMeans(t, id);
  }

  /** A submission is one or two steps of the machine, the second with the worker there or gone. */
  lemma {:induction false} OfferedIsRun(s: System, id: string, kind: JobKind, payload: Payload, priority: JobPriority,
          w: Write, w2: Write)
    returns (run: seq<Action>)
    requires Enabled(s, Action.Submit(id, kind, payload, priority, w))
    ensures IsRun(s, run)
    ensures Final(s, run).files
            == Offered(s.files, NewJob(id, kind, payload, priority, s.now), w, !s.phase.Down?, s.now, w2)
  {
    var a := Action.Submit(id, kind, payload, priority, w);
    var t := Step(s, a);
    OneStep(s, a);
    run := [a];
    if id in t.unsent && Existing(s.files.mem, NewJob(id, kind, payload, priority, s.now)).None? && w.Done? {
      var b := if s.phase.Down? then QueueGone(id, w2) else Sent(id);
      OneStep(t, b);
      RunJoins(s, [a], [b]);
      run := [a] + [b];
    }
    hide Existing; hide Truncated; hide EditList; hide IsRun; hide Final;
  }

  lemma {:induction false} DropKeepsLast(jobs: seq<Job>, job: Job, n: nat)
    requires IsLive(job)
    ensures DropTerminal(jobs + [job], n) == DropTerminal(jobs, n) + [job]
  {
    var all := jobs + [job];
    if jobs == [] {
      assert all[1..] == [];
    } else if n > 0 {
      assert all[0] == jobs[0] && all[1..] == jobs[1..] + [job];
      DropKeepsLast(jobs[1..], job, if IsTerminal(jobs[0]) then n - 1 else n);
    }
  }

  lemma {:induction false} TruncatedKeepsLast(jobs: seq<Job>, job: Job)
    requires IsLive(job)
    ensures exists kept :: Truncated(jobs + [job]) == kept + [job]
  {
    if |jobs| < MAX_JOBS {
      assert Truncated(jobs + [job]) == jobs + [job];
    } else {
      DropKeepsLast(jobs, job, |jobs| + 1 - MAX_JOBS);
      assert Truncated(jobs + [job]) == DropTerminal(jobs, |jobs| + 1 - MAX_JOBS) + [job];
    }
  }

  /** A submission's wake-up is sent or fails once: after either, neither can happen for it
      again, and no other submission's is touched. */
  lemma {:induction false} WakesUpOnce(s: System, id: string, w: Write, other: string)
    requires id in s.unsent
    ensures !s.phase.Down? ==> id !in Step(s, Sent(id)).unsent
    ensures s.phase.Down? ==> id !in Step(s, QueueGone(id, w)).unsent
    ensures other != id ==>
              && (!s.phase.Down? ==> (other in Step(s, Sent(id)).unsent <==> other in s.unsent))
              && (s.phase.Down? ==> (other in Step(s, QueueGone(id, w)).unsent <==> other in s.unsent))
  {
    hide Updated;
  }

  /** A submission that creates a job and is refused leaves it failed if the mark is saved;
      otherwise it stays queued in the file, for the next start-up to find. On a full list it
      has taken the place of ended jobs all the same. */
  lemma {:induction false} RefusedButListed(f: Files, job: Job, now: int, w2: Write) returns (kept: seq<Job>)
    requires DistinctIds(f.mem + [job]) && IsLive(job) && Existing(f.mem, job).None?
    ensures Truncated(f.mem + [job]) == kept + [job]
    ensures var failed := job.(status := JobStatus.Failed, progress := 100, finishedAt := Some(now), updatedAt := now);
            Offered(f, job, Done, false, now, w2).disk == kept + [if w2.Lost? then job else failed]
  {
    TruncatedKeepsLast(f.mem, job);
    TruncatedFewer(f.mem + [job]);
    kept :| Truncated(f.mem + [job]) == kept + [job];
    LastIsFound(kept, job, QueueUnavailable, now);
    hide EditList; hide Existing; hide DistinctIds; hide Truncated;
  }

  /** The calls of the store that clean up are steps of the machine, whose files end as the
      methods leave them. */
  lemma {:induction false} CallsAreSteps(s: System, retain: nat, cap: nat, w: Write, w2: Write)
    requires !s.phase.Recovering?
    ensures Step(s, CompactJobs(w)) == s.(files := Committed(s.files, Truncated(s.files.mem), w))
    ensures Step(s, ClearJobs(w, w2)) == s.(files := Cleared(s.files, w, w2))
    ensures Step(s, ArchiveJobs(retain, cap, w, w2)) == s.(files := Archived(s.files, retain, cap, w, w2))
  {
    hide Truncated; hide Cleared; hide Archived; hide Committed;
  }
}
