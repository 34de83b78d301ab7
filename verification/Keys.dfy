/** Idempotency keys over whole runs: when live jobs come to share one, and what a
    second submission finds. */
module Keys {
  import opened Options
  import opened JobModel
  import opened Store
  import opened Ledger
  import opened Worker
  import opened Bounded
  import opened Events

  ghost predicate LiveKeysDistinct(jobs: seq<Job>) {
    forall x, y :: x in jobs && y in jobs && IsLive(x) && IsLive(y) && x.key.Some? && x.key == y.key ==> x.id == y.id
  }

  ghost predicate KeysOk(f: Files) {
    LiveKeysDistinct(f.mem) && LiveKeysDistinct(f.disk)
  }

  /** The listed failed job of this id would wake up beside a live job of its key. */
  ghost predicate Clashes(jobs: seq<Job>, id: string) {
    var job := Lookup(jobs, id);
    job.Some? && job.value.status.Failed? && job.value.key.Some?
      && exists y :: y in jobs && IsLive(y) && y.key == job.value.key
  }

  /** An automatic retry does not look at the keys: it keeps them distinct exactly when
      nothing live has the job's key by then. */
  lemma {:induction false} RequeueKeepsKeysIff(jobs: seq<Job>, id: string, attempt: nat, due: int, now: int)
    requires DistinctIds(jobs) && LiveKeysDistinct(jobs)
    ensures EditList(jobs, id, Edit.Requeue(attempt, due), now).Some?
            <==> Lookup(jobs, id).Some? && Lookup(jobs, id).value.status.Failed?
    ensures EditList(jobs, id, Edit.Requeue(attempt, due), now).Some? ==>
              (LiveKeysDistinct(EditList(jobs, id, Edit.Requeue(attempt, due), now).value) <==> !Clashes(jobs, id))
  {
    var i := Find(jobs, id);
    var e := Edit.Requeue(attempt, due);
    if i < |jobs| && EditJob(e, jobs[i], now).Some? {
      EditedList(jobs, id, e, now);
      EditKeepsIdentity(e, jobs[i], now);
      var after := EditList(jobs, id, e, now).value;
      var k := EditJob(e, jobs[i], now).value.(updatedAt := now);
      assert IsLive(k) && k.key == jobs[i].key && !IsLive(jobs[i]);
      assert after == jobs[i := k] && after[i] == k;
      hide EditList; hide EditJob; hide IsLive;
      assert k in after;
      forall y | y in jobs && IsLive(y) ensures y in after && y.id != id {
        var m :| 0 <= m < |jobs| && jobs[m] == y;
        assert after[m] == y;
      }
    }
  }

  // ------------------------------------------------------- the other changes

  lemma {:induction false} FewerKeys(after: seq<Job>, before: seq<Job>)
    requires LiveKeysDistinct(before) && forall j :: j in after ==> j in before
    ensures LiveKeysDistinct(after)
  {
  }

  lemma {:induction false} EditKeys(jobs: seq<Job>, id: string, e: Edit, now: int)
    requires DistinctIds(jobs) && LiveKeysDistinct(jobs) && !e.Requeue?
    ensures EditList(jobs, id, e, now).Some? ==> LiveKeysDistinct(EditList(jobs, id, e, now).value)
  {
    if EditList(jobs, id, e, now).Some? {
      EditedList(jobs, id, e, now);
      var j := Lookup(jobs, id).value;
      LookupIsListed(jobs, id);
      EditKeepsIdentity(e, j, now);
      hide EditList; hide EditJob; hide Lookup; hide IsLive;
    }
  }

  lemma {:induction false} AddKeys(jobs: seq<Job>, job: Job)
    requires LiveKeysDistinct(jobs) && Existing(jobs, job).None? && DistinctIds(jobs + [job])
    ensures LiveKeysDistinct(Truncated(jobs + [job]))
  {
    var all := jobs + [job];
    assert forall j :: j in all ==> j == job || j in jobs;
    assert forall j :: j in jobs ==> !SameLiveKey(j, job);
    TruncatedFewer(all);
    FewerKeys(Truncated(all), all);
    hide Truncated; hide DistinctIds;
  }

  lemma {:induction false} CommitKeys(f: Files, snapshot: seq<Job>, w: Write)
    requires KeysOk(f) && LiveKeysDistinct(snapshot)
    ensures KeysOk(Committed(f, snapshot, w))
  {
    hide LiveKeysDistinct;
  }

  lemma {:induction false} UpdateKeys(f: Files, id: string, e: Edit, now: int, w: Write)
    requires KeysOk(f) && DistinctIds(f.mem) && !e.Requeue?
    ensures KeysOk(Updated(f, id, e, now, w))
  {
    EditKeys(f.mem, id, e, now);
    if EditList(f.mem, id, e, now).Some? {
      CommitKeys(f, EditList(f.mem, id, e, now).value, w);
    }
    hide LiveKeysDistinct; hide EditList; hide DistinctIds;
  }

  lemma {:induction false} RetryKeys(f: Files, id: string, e: Edit, now: int, w: Write)
    requires KeysOk(f) && DistinctIds(f.mem) && e.Requeue?
    ensures KeysOk(Updated(f, id, e, now, w)) <==> w.Lost? || !Clashes(f.mem, id)
  {
    RequeueKeepsKeysIff(f.mem, id, e.attempt, e.dueAt, now);
    hide LiveKeysDistinct; hide EditList; hide DistinctIds; hide Lookup;
  }

  // ---------------------------------------------------------------- the runs

  /** The step is a retry whose write lands, reported or not, on a key that is live. */
  ghost predicate RetryClashes(s: System, a: Action)
    requires Enabled(s, a)
  {
    a.Requeue? && !a.w.Lost? && Clashes(s.files.mem, s.phase.failed.id)
  }

  lemma {:induction false} KeyStep(s: System, a: Action)
    requires LedgerInv(s) && KeysOk(s.files) && Enabled(s, a)
    ensures KeysOk(Step(s, a).files) <==> !RetryClashes(s, a)
  {
    LedgerIsDistinct(s);
    hide LedgerInv; hide LiveKeysDistinct; hide Clashes; hide DistinctIds; hide Updated; hide Truncated; hide RetryOf;
    hide Existing;
    if EditOf(s, a).Some? {
      StepIsEdit(s, a);
      var (id, e, w) := EditOf(s, a).value;
      if a.Requeue? {
        RetryKeys(s.files, id, e, s.now, w);
      } else {
        OtherEditsDoNotRetry(s, a);
        UpdateKeys(s.files, id, e, s.now, w);
      }
    } else if a.Submit? {
      SubmitKeys(s, NewJob(a.id, a.kind, a.payload, a.priority, s.now), a.w);
    } else if a.Crash? {
      TruncatedFewer(s.files.disk);
      FewerKeys(Truncated(s.files.disk), s.files.disk);
    } else {
      SilentStep(s, a);
      FewerKeys(Step(s, a).files.mem, s.files.mem);
      SilentDisk(s, a);
    }
    hide Step; hide EditOf;
  }

  lemma {:induction false} LedgerIsDistinct(s: System)
    requires LedgerInv(s)
    ensures DistinctIds(s.files.mem) && DistinctIds(s.files.disk)
  {
  }

  lemma {:induction false} OtherEditsDoNotRetry(s: System, a: Action)
    requires Enabled(s, a) && EditOf(s, a).Some? && !a.Requeue?
    ensures !EditOf(s, a).value.1.Requeue?
  {
  }

  lemma {:induction false} SubmitKeys(s: System, job: Job, w: Write)
    requires LedgerInv(s) && KeysOk(s.files) && job.id !in s.kinds
    ensures KeysOk(Inserted(s.files, job, w))
  {
    if Existing(s.files.mem, job).None? {
      FreshIsDistinct(s.files.mem, job, s.starts, s.kinds);
      AddKeys(s.files.mem, job);
      CommitKeys(s.files, Truncated(s.files.mem + [job]), w);
    }
    hide LedgerInv; hide LiveKeysDistinct; hide Truncated; hide Existing; hide DistinctIds;
  }

  /** A step that edits and adds nothing writes at most what it leaves on the list. */
  lemma {:induction false} SilentDisk(s: System, a: Action)
    requires LedgerInv(s) && KeysOk(s.files) && Enabled(s, a) && EditOf(s, a).None? && !a.Submit? && !a.Crash?
    ensures LiveKeysDistinct(Step(s, a).files.disk)
  {
    var f := s.files;
    LedgerIsDistinct(s);
    hide LedgerInv; hide Truncated; hide DistinctIds; hide Live; hide Archived; hide LiveKeysDistinct;
    match a
    case ArchiveJobs(retain, cap, w, w2) => ArchivedKeys(f, retain, cap, w, w2);
    case ClearJobs(w, w2) =>
      LiveFewer(f.mem);
      FewerKeys(Live(f.mem), f.mem);
    case CompactJobs(w) =>
      TruncatedFewer(f.mem);
      FewerKeys(Truncated(f.mem), f.mem);
    case _ => UntouchedFiles(s, a);
  }

  lemma {:induction false} ArchivedKeys(f: Files, retain: nat, cap: nat, w: Write, w2: Write)
    requires KeysOk(f) && DistinctIds(f.mem)
    ensures LiveKeysDistinct(Archived(f, retain, cap, w, w2).disk)
  {
    var n := Surplus(f.mem, retain);
    if n > 0 {
      ArchivedIs(f, retain, cap, w, w2);
      DropFewer(f.mem, n);
      FewerKeys(DropTerminal(f.mem, n), f.mem);
    }
    hide Surplus; hide DropTerminal; hide OldestTerminal; hide Store.Select; hide Ids; hide LastJobs; hide DistinctIds;
    hide LiveKeysDistinct;
  }

  ghost predicate AlwaysDistinct(s: System, run: seq<Action>)
    requires IsRun(s, run)
    decreases |run|
  {
    KeysOk(s.files) && (run != [] ==> AlwaysDistinct(Step(s, run[0]), run[1..]))
  }

  ghost predicate EverClashes(s: System, run: seq<Action>)
    requires IsRun(s, run)
    decreases |run|
  {
    run != [] && (RetryClashes(s, run[0]) || EverClashes(Step(s, run[0]), run[1..]))
  }

  /** Over any run with any crashes, the live keys of all kinds stay distinct, on the list and
      in the file, exactly if no retry whose write lands finds its key live. */
  lemma {:induction false} LiveKeysIff(s: System, run: seq<Action>)
    requires LedgerInv(s) && KeysOk(s.files) && IsRun(s, run)
    ensures AlwaysDistinct(s, run) <==> !EverClashes(s, run)
    decreases |run|
  {
    hide LedgerInv; hide KeysOk; hide Step; hide Enabled; hide RetryClashes;
    if run != [] {
      var t := Step(s, run[0]);
      LedgerStep(s, run[0]);
      KeyStep(s, run[0]);
      if RetryClashes(s, run[0]) {
        assert !AlwaysDistinct(t, run[1..]);
      } else {
        LiveKeysIff(t, run[1..]);
      }
    }
  }

  // ---------------------------------------------------- submitting again

  /** The id is listed with this key only, in memory and in the file. */
  ghost predicate HasKey(f: Files, id: string, key: string) {
    forall j :: (j in f.mem || j in f.disk) && j.id == id ==> j.key == Some(key)
  }

  lemma {:induction false} EditHasKey(f: Files, who: string, e: Edit, now: int, w: Write, id: string, key: string)
    requires HasKey(f, id, key) && DistinctIds(f.mem)
    ensures HasKey(Updated(f, who, e, now, w), id, key)
  {
    if EditList(f.mem, who, e, now).Some? {
      EditedList(f.mem, who, e, now);
      LookupIsListed(f.mem, who);
      EditKeepsIdentity(e, Lookup(f.mem, who).value, now);
    }
    hide EditList; hide EditJob; hide Lookup; hide DistinctIds;
  }

  lemma {:induction false} NoNewJobs(g: Files, f: Files, id: string, key: string)
    requires HasKey(f, id, key) && forall j :: j in g.mem || j in g.disk ==> j in f.mem || j in f.disk
    ensures HasKey(g, id, key)
  {
  }

  /** Nothing a step does changes a known job's key. */
  lemma {:induction false} KeyStays(s: System, a: Action, id: string, key: string)
    requires LedgerInv(s) && Enabled(s, a) && HasKey(s.files, id, key) && id in s.kinds
    ensures HasKey(Step(s, a).files, id, key) && id in Step(s, a).kinds
  {
    LedgerIsDistinct(s);
    StepKinds(s, a);
    hide LedgerInv; hide HasKey; hide DistinctIds; hide Updated; hide Truncated; hide RetryOf; hide Existing;
    if EditOf(s, a).Some? {
      StepIsEdit(s, a);
      var (who, e, w) := EditOf(s, a).value;
      EditHasKey(s.files, who, e, s.now, w, id, key);
    } else if a.Submit? {
      SubmitHasKey(s.files, NewJob(a.id, a.kind, a.payload, a.priority, s.now), a.w, id, key);
    } else if a.Crash? {
      TruncatedFewer(s.files.disk);
      NoNewJobs(Step(s, a).files, s.files, id, key);
    } else {
      SilentStep(s, a);
      SilentDiskFrom(s, a);
      NoNewJobs(Step(s, a).files, s.files, id, key);
    }
    hide Step; hide EditOf;
  }

  lemma {:induction false} SubmitHasKey(f: Files, job: Job, w: Write, id: string, key: string)
    requires HasKey(f, id, key) && job.id != id
    ensures HasKey(Inserted(f, job, w), id, key)
  {
    if Existing(f.mem, job).None? {
      var all := f.mem + [job];
      TruncatedFrom(all);
      assert forall j :: j in all ==> j == job || j in f.mem;
    }
    hide Existing; hide Truncated;
  }

  lemma {:induction false} TruncatedFrom(jobs: seq<Job>)
    ensures forall j :: j in Truncated(jobs) ==> j in jobs
  {
    if |jobs| > MAX_JOBS {
      DropPartitions(jobs, |jobs| - MAX_JOBS);
      forall j | j in Truncated(jobs) ensures j in jobs {
        assert j in multiset(jobs);
      }
    }
    hide DropTerminal; hide OldestTerminal;
  }

  lemma {:induction false} SilentDiskFrom(s: System, a: Action)
    requires LedgerInv(s) && Enabled(s, a) && EditOf(s, a).None? && !a.Submit? && !a.Crash?
    ensures forall j :: j in Step(s, a).files.disk ==> j in s.files.mem || j in s.files.disk
  {
    var f := s.files;
    hide LedgerInv; hide Truncated; hide DistinctIds; hide Live; hide Surplus; hide OldestTerminal; hide Store.Select;
    hide Ids; hide LastJobs;
    match a
    case ArchiveJobs(retain, cap, w, w2) =>
      SelectFrom(f.mem, Ids(OldestTerminal(f.mem, Surplus(f.mem, retain))), false);
    case ClearJobs(w, w2) => LiveTwice(f.mem);
    case CompactJobs(w) => TruncatedFrom(f.mem);
    case _ => UntouchedFiles(s, a);
  }

  lemma {:induction false} KeyStaysThroughout(s: System, run: seq<Action>, id: string, key: string)
    requires LedgerInv(s) && IsRun(s, run) && HasKey(s.files, id, key) && id in s.kinds
    ensures HasKey(Final(s, run).files, id, key) && LedgerInv(Final(s, run))
    decreases |run|
  {
    hide LedgerInv; hide HasKey; hide Step; hide Enabled;
    if run != [] {
      LedgerStep(s, run[0]);
      KeyStays(s, run[0], id, key);
      KeyStaysThroughout(Step(s, run[0]), run[1..], id, key);
    }
  }

  /** Submitted work stays submitted: after any run that leaves the job live, submitting the
      same work again changes no file and returns a live job of its key, which is the very
      job if it is a transfer or live keys are distinct. */
  lemma {:induction false} ResubmittingFindsLive(s: System, run: seq<Action>, first: string, second: string,
          kind: JobKind, payload: Payload, p: JobPriority, q: JobPriority, w: Write)
    requires LedgerInv(s) && Enabled(s, Submit(first, kind, payload, p, Done))
    requires IsRun(Step(s, Submit(first, kind, payload, p, Done)), run)
    requires var t := Final(Step(s, Submit(first, kind, payload, p, Done)), run);
             Enabled(t, Submit(second, kind, payload, q, w))
             && Lookup(t.files.mem, first).Some? && IsLive(Lookup(t.files.mem, first).value)
    ensures var t := Final(Step(s, Submit(first, kind, payload, p, Done)), run);
            var found := Existing(t.files.mem, NewJob(second, kind, payload, q, t.now));
            && Step(t, Submit(second, kind, payload, q, w)).files == t.files
            && found.Some? && IsLive(found.value) && found.value.key == Some(KeyOf(kind, payload))
            && (IsTransfer(kind) || LiveKeysDistinct(t.files.mem) ==> found.value.id == first)
  {
    var s1 := Step(s, Submit(first, kind, payload, p, Done));
    var t := Final(s1, run);
    var key := KeyOf(kind, payload);
    LedgerStep(s, Submit(first, kind, payload, p, Done));
    FirstHasKey(s, NewJob(first, kind, payload, p, s.now));
    KeyStaysThroughout(s1, run, first, key);
    var job := Lookup(t.files.mem, first).value;
    LookupIsListed(t.files.mem, first);
    LiveIsFound(t.files.mem, job, NewJob(second, kind, payload, q, t.now), t.starts, t.kinds);
    assert Step(t, Submit(second, kind, payload, q, w)).files
      == Inserted(t.files, NewJob(second, kind, payload, q, t.now), w);
    hide LedgerInv; hide Step; hide Enabled; hide IsRun; hide Final; hide Existing; hide Lookup; hide LiveKeysDistinct;
  }

  lemma {:induction false} FirstHasKey(s: System, job: Job)
    requires LedgerInv(s) && job.id !in s.kinds && job.key.Some?
    ensures HasKey(Submitted(s, job, Done).files, job.id, job.key.value)
  {
    forall j | j in s.files.mem || j in s.files.disk ensures j.id != job.id {
      assert JobOk(j, s.starts, s.kinds);
    }
    TruncatedFrom(s.files.mem + [job]);
    hide LedgerInv; hide Truncated; hide Existing;
    assert forall j :: j in s.files.mem + [job] ==> j == job || j in s.files.mem;
  }

  lemma {:induction false} LiveIsFound(jobs: seq<Job>, live: Job, job: Job, starts: Starts, kinds: map<string, JobKind>)
    requires ListOk(jobs, starts, kinds) && live in jobs && IsLive(live) && IsNew(job)
    requires live.key == job.key
    ensures Existing(jobs, job).Some? && SameLiveKey(Existing(jobs, job).value, job)
            && Existing(jobs, job).value in jobs
    ensures IsTransfer(job.kind) || LiveKeysDistinct(jobs) ==> Existing(jobs, job).value.id == live.id
  {
    assert SameLiveKey(live, job);
    assert JobOk(live, starts, kinds);
    KeyIsInjective(live.kind, live.payload, job.kind, job.payload);
    hide Existing; hide JobOk; hide DistinctIds;
  }
}
