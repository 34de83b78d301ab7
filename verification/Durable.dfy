/** No accepted work is lost: what the list holds live, the file holds, at every
    moment a crash could come. */
module Durable {
  import opened JobModel
  import opened Store
  import opened Ledger
  import opened Worker
  import opened Bounded
  import opened Events

  /** `k` is `j` after one update by the program. */
  ghost predicate IsEdited(k: Job, j: Job) {
    exists e: Edit, now: int :: EditJob(e, j, now).Some? && k == EditJob(e, j, now).value.(updatedAt := now)
  }

  /** The job is there as it was, or as one update has left it. */
  ghost predicate StillThere(jobs: seq<Job>, j: Job) {
    j in jobs || exists k :: k in jobs && IsEdited(k, j)
  }

  /** Every job live on `before` is still on `after`. */
  ghost predicate Kept(after: seq<Job>, before: seq<Job>) {
    forall j :: j in before && IsLive(j) ==> StillThere(after, j)
  }

  /** A change of the files that loses no live job, on the list or for a crash. */
  ghost predicate Sound(g: Files, f: Files) {
    Kept(g.disk, g.mem) && Kept(g.mem, f.mem)
  }

  lemma {:induction false} AllKept(after: seq<Job>, before: seq<Job>)
    requires forall j :: j in before && IsLive(j) ==> j in after
    ensures Kept(after, before)
  {
    hide IsEdited; hide IsLive;
  }

  lemma {:induction false} DropHasLive(jobs: seq<Job>, n: nat, j: Job)
    requires j in jobs && IsLive(j)
    ensures j in DropTerminal(jobs, n)
  {
    if n > 0 && jobs[0] != j {
      DropHasLive(jobs[1..], if IsTerminal(jobs[0]) then n - 1 else n, j);
    }
  }

  lemma {:induction false} DropKept(jobs: seq<Job>, n: nat)
    ensures Kept(DropTerminal(jobs, n), jobs)
  {
    hide DropTerminal; hide Kept;
    forall j | j in jobs && IsLive(j) ensures j in DropTerminal(jobs, n) {
      DropHasLive(jobs, n, j);
    }
    AllKept(DropTerminal(jobs, n), jobs);
  }

  lemma {:induction false} TruncatedHasLive(jobs: seq<Job>, j: Job)
    requires j in jobs && IsLive(j)
    ensures j in Truncated(jobs)
  {
    if |jobs| > MAX_JOBS {
      DropHasLive(jobs, |jobs| - MAX_JOBS, j);
    }
    hide DropTerminal;
  }

  lemma {:induction false} TruncatedKept(jobs: seq<Job>)
    ensures Kept(Truncated(jobs), jobs)
  {
    hide Truncated; hide Kept;
    forall j | j in jobs && IsLive(j) ensures j in Truncated(jobs) {
      TruncatedHasLive(jobs, j);
    }
    AllKept(Truncated(jobs), jobs);
  }

  lemma {:induction false} LiveKept(jobs: seq<Job>)
    ensures Kept(Live(jobs), jobs)
  {
    LiveTwice(jobs);
    hide Live; hide Kept;
    AllKept(Live(jobs), jobs);
  }

  lemma {:induction false} EditKept(jobs: seq<Job>, id: string, e: Edit, now: int)
    ensures EditList(jobs, id, e, now).Some? ==> Kept(EditList(jobs, id, e, now).value, jobs)
  {
    var i := Find(jobs, id);
    if i < |jobs| && EditJob(e, jobs[i], now).Some? {
      var after := EditList(jobs, id, e, now).value;
      assert IsEdited(after[i], jobs[i]);
      hide EditJob; hide IsEdited; hide IsLive;
      forall j | j in jobs && IsLive(j) ensures StillThere(after, j) {
        var p :| 0 <= p < |jobs| && jobs[p] == j;
        if p == i {
          assert after[i] in after;
        } else {
          assert after[p] == j;
        }
      }
    }
  }

  lemma {:induction false} AppendKept(jobs: seq<Job>, job: Job)
    ensures Kept(Truncated(jobs + [job]), jobs)
  {
    TruncatedKept(jobs + [job]);
    hide Truncated; hide StillThere;
  }

  // -------------------------------------------------------------- the files

  lemma {:induction false} CommitIsSound(f: Files, snapshot: seq<Job>, w: Write)
    requires Kept(f.disk, f.mem) && Kept(snapshot, f.mem)
    ensures Sound(Committed(f, snapshot, w), f)
  {
    AllKept(snapshot, snapshot);
    AllKept(f.mem, f.mem);
    hide Kept;
  }

  lemma {:induction false} UpdateIsSound(f: Files, id: string, e: Edit, now: int, w: Write)
    requires Kept(f.disk, f.mem)
    ensures Sound(Updated(f, id, e, now, w), f)
  {
    EditKept(f.mem, id, e, now);
    AllKept(f.mem, f.mem);
    if EditList(f.mem, id, e, now).Some? {
      CommitIsSound(f, EditList(f.mem, id, e, now).value, w);
    }
    hide Kept; hide EditList;
  }

  lemma {:induction false} InsertIsSound(f: Files, job: Job, w: Write)
    requires Kept(f.disk, f.mem)
    ensures Sound(Inserted(f, job, w), f)
  {
    AppendKept(f.mem, job);
    AllKept(f.mem, f.mem);
    CommitIsSound(f, Truncated(f.mem + [job]), w);
    hide Kept; hide Truncated; hide Existing;
  }

  lemma {:induction false} ArchiveIsSound(f: Files, retain: nat, cap: nat, w: Write, w2: Write)
    requires Kept(f.disk, f.mem) && DistinctIds(f.mem)
    ensures Sound(Archived(f, retain, cap, w, w2), f)
  {
    AllKept(f.mem, f.mem);
    var n := Surplus(f.mem, retain);
    if n > 0 {
      ArchivedIs(f, retain, cap, w, w2);
      DropKept(f.mem, n);
      CommitIsSound(f.(archive := LastJobs(ArchiveWith(f, n), cap)), DropTerminal(f.mem, n), w2);
    }
    hide Kept; hide Surplus; hide DropTerminal; hide OldestTerminal; hide Store.Select; hide Ids; hide LastJobs;
    hide DistinctIds;
  }

  lemma {:induction false} ClearIsSound(f: Files, w: Write, w2: Write)
    requires Kept(f.disk, f.mem)
    ensures Sound(Cleared(f, w, w2), f)
  {
    LiveKept(f.mem);
    CommitIsSound(f, Live(f.mem), w);
    hide Kept; hide Live;
  }

  // ---------------------------------------------------------------- the runs

  /** No step but a crash takes a live job off the list, and after every step whatever is
      live on the list is in the file. */
  lemma {:induction false} DurableStep(s: System, a: Action)
    requires LedgerInv(s) && Kept(s.files.disk, s.files.mem) && Enabled(s, a) && !a.Crash?
    ensures Sound(Step(s, a).files, s.files)
  {
    hide LedgerInv; hide Kept; hide Sound; hide Updated; hide Inserted; hide Archived; hide Cleared; hide Committed;
    hide Truncated; hide EditOf; hide NewJob;
    if EditOf(s, a).Some? {
      var (id, e, w) := EditOf(s, a).value;
      StepIsEdit(s, a);
      UpdateIsSound(s.files, id, e, s.now, w);
    } else {
      match a
      case Submit(id, kind, payload, priority, w) =>
        InsertIsSound(s.files, NewJob(id, kind, payload, priority, s.now), w);
      case ArchiveJobs(retain, cap, w, w2) =>
        LedgerIsDistinct(s);
        ArchiveIsSound(s.files, retain, cap, w, w2);
      case ClearJobs(w, w2) => ClearIsSound(s.files, w, w2);
      case CompactJobs(w) =>
        TruncatedKept(s.files.mem);
        CommitIsSound(s.files, Truncated(s.files.mem), w);
      case _ =>
        UntouchedFiles(s, a);
        UntouchedIsSound(s.files);
    }
  }

  lemma {:induction false} LedgerIsDistinct(s: System)
    requires LedgerInv(s)
    ensures DistinctIds(s.files.mem)
  {
  }

  lemma {:induction false} UntouchedIsSound(f: Files)
    requires Kept(f.disk, f.mem)
    ensures Sound(f, f)
  {
    AllKept(f.mem, f.mem);
  }

  /** A crash keeps every live job too, as it was or as an update reported failed left it,
      unless that update had already ended it in the file. */
  lemma {:induction false} CrashKeeps(s: System, j: Job)
    requires Kept(s.files.disk, s.files.mem) && j in s.files.mem && IsLive(j)
    ensures StillThere(Crashed(s).files.mem, j) || exists k :: k in s.files.disk && IsEdited(k, j) && IsTerminal(k)
  {
    hide Truncated; hide IsEdited; hide Restart;
    var disk := s.files.disk;
    assert StillThere(disk, j);
    if j in disk {
      TruncatedHasLive(disk, j);
    } else {
      var k :| k in disk && IsEdited(k, j);
      if IsLive(k) {
        TruncatedHasLive(disk, k);
      }
    }
  }

  lemma {:induction false} RunKeepsDurable(s: System, run: seq<Action>)
    requires LedgerInv(s) && Kept(s.files.disk, s.files.mem) && IsRun(s, run)
    ensures Kept(Final(s, run).files.disk, Final(s, run).files.mem)
    decreases |run|
  {
    hide LedgerInv; hide Kept; hide Step; hide Enabled; hide Sound; hide Crashed;
    if run != [] {
      var t := Step(s, run[0]);
      LedgerStep(s, run[0]);
      assert Kept(t.files.disk, t.files.mem) by {
        if run[0].Crash? {
          CrashedKept(s);
          CrashIs(s, run[0]);
        } else {
          DurableStep(s, run[0]);
          SoundKeeps(t.files, s.files);
        }
      }
      RunKeepsDurable(t, run[1..]);
    }
  }

  lemma {:induction false} CrashIs(s: System, a: Action)
    requires a.Crash? && Enabled(s, a)
    ensures Step(s, a) == Crashed(s)
  {
  }

  lemma {:induction false} SoundKeeps(g: Files, f: Files)
    requires Sound(g, f)
    ensures Kept(g.disk, g.mem)
  {
  }

  lemma {:induction false} CrashedKept(s: System)
    ensures Kept(Crashed(s).files.disk, Crashed(s).files.mem)
  {
    AllKept(Truncated(s.files.disk), Truncated(s.files.disk));
    hide Kept; hide Truncated; hide Restart;
  }

  /** In every reachable state a crash would find each live job of the list in the file, as
      listed or as one update reported failed has left it. */
  lemma {:induction false} LiveJobsAreOnDisk(disk: seq<Job>, archive: seq<Job>, kinds: map<string, JobKind>,
          now: int, run: seq<Action>)
    requires ListOk(disk, map[], kinds) && IsRun(Boot(disk, archive, kinds, now), run)
    ensures var s := Final(Boot(disk, archive, kinds, now), run); Kept(s.files.disk, s.files.mem)
  {
    BootLedger(disk, archive, kinds, now);
    CrashedKept(Rested(Files([], disk, archive), Down, now, map[], kinds));
    hide ListOk; hide Final; hide IsRun; hide Kept; hide LedgerInv; hide Crashed;
    RunKeepsDurable(Boot(disk, archive, kinds, now), run);
  }
}
