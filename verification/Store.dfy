/** `src/jobs/store.rs`: the job list in memory, its file, the archive file, and
    every change the program makes to one job. */
module Store {
  import opened Options
  import opened JobModel

  const MAX_JOBS := 500

  /** One atomic file write: it lands; it fails and leaves the old file; or it is
      reported failed although the new file is already in place. */
  datatype Write = Done | Lost | InDoubt

  /** The list the program works on, the job file, and the archive file. */
  datatype Files = Files(mem: seq<Job>, disk: seq<Job>, archive: seq<Job>)

  function Committed(f: Files, snapshot: seq<Job>, w: Write): Files {
    match w
    case Done => f.(mem := snapshot, disk := snapshot)
    case Lost => f
    case InDoubt => f.(disk := snapshot)
  }

  // -------------------------------------------------------- changes to a job

  /** Every closure the program hands to an update, by where it comes from. */
  datatype Edit =
    | Claim(priority: JobPriority)          // the worker takes a queued job
    | Progress(amount: nat)                 // a job body reports progress
    | Heartbeat                             // a long call keeps the job fresh
    | Record(reached: Option<nat>)          // a media download keeps what it has saved so far
    | Complete(succeeded: bool)             // a job body ends the job
    | FailMissing                           // a metadata body finds no subscription
    | FailError(error: JobErrorClass)       // the body returned an error
    | FailPanic                             // the body panicked
    | FailTimeout                           // the watchdog stopped the body
    | ClearError                            // after success
    | AttachClass(error: JobErrorClass)     // after failure
    | Requeue(attempt: nat, dueAt: int)     // automatic retry
    | Cancel
    | Reprioritize(priority: JobPriority)
    | Interrupt                             // found running at start-up or shutdown
    | SkipPush                              // unfinished push at start-up
    | SkipDuplicate                         // duplicate key at start-up
    | QueueUnavailable                      // the worker is gone

  function Ended(job: Job, status: JobStatus, now: int): Job {
    job.(status := status, progress := 100, finishedAt := Some(now))
  }

  /** The edited job, or None when the closure refuses and nothing is written. */
  function EditJob(e: Edit, job: Job, now: int): Option<Job> {
    match e
    case Claim(priority) =>
      if !job.status.Queued? || job.priority != priority then None
      else Some(job.(status := Running, startedAt := Some(now)))
    case Progress(amount) =>
      if !job.status.Running? then None
      else Some(job.(progress := amount, startedAt := if job.startedAt.None? then Some(now) else job.startedAt))
    case Heartbeat => if job.status.Running? then Some(job) else None
    case Record(reached) => Some(job.(progress := reached.GetOr(job.progress)))
    case Complete(succeeded) =>
      if !job.status.Running? then Some(job)
      else Some(Ended(job, if succeeded then Succeeded else Failed, now))
    case FailMissing => Some(Ended(job, Failed, now))
    case FailError(error) =>
      if job.status.Running? then Some(Ended(job, Failed, now).(errorClass := Some(error))) else None
    case FailPanic => if job.status.Running? then Some(Ended(job, Failed, now)) else None
    case FailTimeout =>
      if job.status.Running? then Some(Ended(job, Failed, now).(errorClass := Some(TimedOut))) else None
    case ClearError =>
      if job.status.Succeeded? then Some(job.(errorClass := None, nextAttemptAt := None)) else None
    case AttachClass(error) => if job.status.Failed? then Some(job.(errorClass := Some(error))) else None
    case Requeue(attempt, dueAt) =>
      if !job.status.Failed? then None
      else Some(job.(status := Queued, progress := 0, attempt := attempt, nextAttemptAt := Some(dueAt),
                     startedAt := None, finishedAt := None))
    case Cancel =>
      if job.status.Queued? || (job.status.Running? && job.kind.MetadataScrape?)
      then Some(Ended(job, Canceled, now)) else None
    case Reprioritize(priority) => if job.status.Queued? then Some(job.(priority := priority)) else None
    case Interrupt => Some(Ended(job, Failed, now))
    case SkipPush => Some(Ended(job, Canceled, now))
    case SkipDuplicate => Some(Ended(job, Canceled, now))
    case QueueUnavailable => Some(Ended(job, Failed, now))
  }

  // --------------------------------------------------------- lists of jobs

  /** The first position of this id, or the length. */
  function Find(jobs: seq<Job>, id: string): (i: nat)
    ensures i <= |jobs| && (i < |jobs| ==> jobs[i].id == id)
    ensures forall k :: 0 <= k < i ==> jobs[k].id != id
  {
    if jobs == [] || jobs[0].id == id then 0 else 1 + Find(jobs[1..], id)
  }

  function Lookup(jobs: seq<Job>, id: string): Option<Job> {
    var i := Find(jobs, id);
    if i < |jobs| then Some(jobs[i]) else None
  }

  function EditList(jobs: seq<Job>, id: string, e: Edit, now: int): Option<seq<Job>> {
    var i := Find(jobs, id);
    if i == |jobs| then None
    else
      var edited := EditJob(e, jobs[i], now);
      if edited.None? then None else Some(jobs[i := edited.value.(updatedAt := now)])
  }

  /** `update`, `try_update` and `update_if` on the files: an edit that refuses writes nothing. */
  function Updated(f: Files, id: string, e: Edit, now: int, w: Write): Files {
    match EditList(f.mem, id, e, now)
    case None => f
    case Some(snapshot) => Committed(f, snapshot, w)
  }

  predicate SameLiveKey(existing: Job, job: Job) {
    job.key.Some? && existing.key == job.key && IsLive(existing)
  }

  /** The newest live job with the same idempotency key. */
  function Existing(jobs: seq<Job>, job: Job): (r: Option<Job>)
    ensures r.Some? ==> r.value in jobs && SameLiveKey(r.value, job)
    ensures r.None? ==> forall j :: j in jobs ==> !SameLiveKey(j, job)
  {
    if jobs == [] then None
    else if SameLiveKey(jobs[|jobs| - 1], job) then Some(jobs[|jobs| - 1])
    else
      assert jobs == jobs[..|jobs| - 1] + [jobs[|jobs| - 1]];
      Existing(jobs[..|jobs| - 1], job)
  }

  /** `add_idempotent` on the files. */
  function Inserted(f: Files, job: Job, w: Write): Files {
    match Existing(f.mem, job)
    case Some(_) => f
    case None => Committed(f, Truncated(f.mem + [job]), w)
  }

  function TerminalCount(jobs: seq<Job>): nat {
    if jobs == [] then 0 else (if IsTerminal(jobs[0]) then 1 else 0) + TerminalCount(jobs[1..])
  }

  /** Drops the first `n` terminal jobs. */
  function DropTerminal(jobs: seq<Job>, n: nat): seq<Job> {
    if jobs == [] || n == 0 then jobs
    else if IsTerminal(jobs[0]) then DropTerminal(jobs[1..], n - 1)
    else [jobs[0]] + DropTerminal(jobs[1..], n)
  }

  function Truncated(jobs: seq<Job>): seq<Job> {
    if |jobs| <= MAX_JOBS then jobs else DropTerminal(jobs, |jobs| - MAX_JOBS)
  }

  function Live(jobs: seq<Job>): seq<Job> {
    if jobs == [] then [] else (if IsTerminal(jobs[0]) then [] else [jobs[0]]) + Live(jobs[1..])
  }

  /** The first `n` terminal jobs. */
  function OldestTerminal(jobs: seq<Job>, n: nat): seq<Job> {
    if jobs == [] || n == 0 then []
    else if IsTerminal(jobs[0]) then [jobs[0]] + OldestTerminal(jobs[1..], n - 1)
    else OldestTerminal(jobs[1..], n)
  }

  function Ids(jobs: seq<Job>): set<string> {
    set i | 0 <= i < |jobs| :: jobs[i].id
  }

  /** The jobs whose id is (or is not) among these, in order. */
  function Select(jobs: seq<Job>, ids: set<string>, among: bool): seq<Job> {
    if jobs == [] then []
    else (if (jobs[0].id in ids) == among then [jobs[0]] else []) + Select(jobs[1..], ids, among)
  }

  function LastJobs(jobs: seq<Job>, n: nat): seq<Job> {
    if |jobs| > n then jobs[|jobs| - n..] else jobs
  }

  lemma {:induction false} DropStep(jobs: seq<Job>, i: nat, n: nat)
    requires i <= |jobs|
    ensures i == |jobs| ==> DropTerminal(jobs[i..], n) == []
    ensures i < |jobs| && n > 0 && IsTerminal(jobs[i]) ==>
            DropTerminal(jobs[i..], n) == DropTerminal(jobs[i + 1..], n - 1)
    ensures i < |jobs| && !(n > 0 && IsTerminal(jobs[i])) ==>
            DropTerminal(jobs[i..], n) == [jobs[i]] + DropTerminal(jobs[i + 1..], n)
  {
    hide IsTerminal;
    if i < |jobs| {
      assert jobs[i..][0] == jobs[i] && jobs[i..][1..] == jobs[i + 1..];
    }
  }

  /** `truncate_jobs`: keeps the order, drops the oldest terminal jobs over capacity. */
  method TruncateJobs(jobs: seq<Job>) returns (kept: seq<Job>)
    ensures kept == Truncated(jobs)
  {
    hide DropTerminal; hide IsTerminal;
    if |jobs| <= MAX_JOBS {
      return jobs;
    }
    var excess := |jobs| - MAX_JOBS;
    kept := [];
    assert jobs[0..] == jobs;
    for i := 0 to |jobs|
      invariant excess >= 0
      invariant kept + DropTerminal(jobs[i..], excess) == Truncated(jobs)
    {
      DropStep(jobs, i, excess);
      if excess > 0 && IsTerminal(jobs[i]) {
        excess := excess - 1;
      } else {
        ghost var rest := DropTerminal(jobs[i + 1..], excess);
        assert kept + ([jobs[i]] + rest) == (kept + [jobs[i]]) + rest;
        kept := kept + [jobs[i]];
      }
    }
    DropStep(jobs, |jobs|, excess);
  }

  function BuildIndex(jobs: seq<Job>): map<string, nat> {
    if jobs == [] then map[]
    else BuildIndex(jobs[..|jobs| - 1])[jobs[|jobs| - 1].id := |jobs| - 1]
  }

  // ---------------------------------------------------------------- the store

  datatype Added = Created(job: Job) | Deduplicated(job: Job) | NotSaved

  /** How many terminal jobs there are beyond those retained. */
  function Surplus(jobs: seq<Job>, retain: nat): nat {
    if TerminalCount(jobs) > retain then TerminalCount(jobs) - retain else 0
  }

  /** The archive step: the archive file is written first, then the job file. */
  function Archived(f: Files, retain: nat, cap: nat, w1: Write, w2: Write): Files {
    var surplus := Surplus(f.mem, retain);
    if surplus == 0 then f
    else
      var ids := Ids(OldestTerminal(f.mem, surplus));
      var archive := LastJobs(f.archive + Select(f.mem, ids, true), cap);
      match w1
      case Lost => f
      case InDoubt => f.(archive := archive)
      case Done => Committed(f.(archive := archive), Select(f.mem, ids, false), w2)
  }

  function Cleared(f: Files, w1: Write, w2: Write): Files {
    var g := Committed(f, Live(f.mem), w1);
    if w1.Done? && f.archive != [] && !w2.Lost? then g.(archive := []) else g
  }

  /** `JobStore`: the list and its id index are replaced together, after the file. */
  class JobStore {
    var jobs: seq<Job>
    var idIndex: map<string, nat>
    var disk: seq<Job>
    var archive: seq<Job>

    ghost predicate Valid()
      reads this
    {
      idIndex == BuildIndex(jobs)
    }

    function View(): Files
      reads this
    {
      Files(jobs, disk, archive)
    }

    constructor (disk: seq<Job>, archive: seq<Job>)
      ensures Valid() && View() == Files([], disk, archive)
    {
      jobs, idIndex := [], map[];
      this.disk, this.archive := disk, archive;
    }

    method ReplaceMemory(snapshot: seq<Job>)
      modifies this
      ensures Valid() && View() == old(View()).(mem := snapshot)
    {
      jobs := snapshot;
      idIndex := BuildIndex(snapshot);
    }

    /** Reads the file, truncating what is over capacity. */
    method Load(w: Write) returns (ok: bool)
      modifies this
      ensures Valid() || !ok
      ensures ok ==> View() == Files(Truncated(old(disk)), Truncated(old(disk)), old(archive))
      ensures !ok ==> disk in {old(disk), Truncated(old(disk))} && archive == old(archive) && jobs == old(jobs)
    {
      var parsed := TruncateJobs(disk);
      if |parsed| != |disk| {
        if w.Lost? {
          return false;
        }
        disk := parsed;
        if w.InDoubt? {
          return false;
        }
      } else {
        SameLengthIsSame(disk);
      }
      ReplaceMemory(parsed);
      return true;
    }

    method Commit(snapshot: seq<Job>, w: Write) returns (ok: bool)
      requires Valid()
      modifies this
      ensures Valid() && View() == Committed(old(View()), snapshot, w) && ok == w.Done?
      ensures archive == old(archive) && jobs == (if w.Done? then snapshot else old(jobs))
      ensures disk == if w.Lost? then old(disk) else snapshot
    {
      if w.Lost? {
        return false;
      }
      disk := snapshot;
      if w.InDoubt? {
        return false;
      }
      ReplaceMemory(snapshot);
      return true;
    }

    method Get(id: string) returns (job: Option<Job>)
      requires Valid()
      ensures DistinctIds(jobs) ==> job == Lookup(jobs, id)
    {
      IndexBounds(jobs);
      if DistinctIds(jobs) {
        IndexIsFind(jobs);
        assert HasId(jobs, id) <==> Find(jobs, id) < |jobs|;
      }
      if id !in idIndex {
        return None;
      }
      return Some(jobs[idIndex[id]]);
    }

    method AddIdempotent(job: Job, w: Write) returns (added: Added)
      requires Valid()
      modifies this
      ensures Valid()
      ensures View() == Inserted(old(View()), job, w)
      ensures match Existing(old(jobs), job)
              case Some(existing) => added == Deduplicated(existing)
              case None => added == if w.Done? then Created(job) else NotSaved
    {
      if job.key.Some? {
        var i := |jobs|;
        assert jobs[..i] == jobs;
        while i > 0
          invariant 0 <= i <= |jobs|
          invariant Existing(jobs, job) == Existing(jobs[..i], job)
        {
          i := i - 1;
          assert jobs[..i + 1][..i] == jobs[..i];
          if SameLiveKey(jobs[i], job) {
            return Deduplicated(jobs[i]);
          }
        }
        assert jobs[..i] == [];
      }
      assert Existing(jobs, job).None?;
      var snapshot := TruncateJobs(jobs + [job]);
      var ok := Commit(snapshot, w);
      return if ok then Created(job) else NotSaved;
    }

    /** `update`, `try_update` and `update_if`: edit the first job with this id. */
    method UpdateIf(id: string, e: Edit, now: int, w: Write) returns (updated: Option<Job>)
      requires Valid()
      modifies this
      ensures Valid()
      ensures View() == Updated(old(View()), id, e, now, w)
      ensures match EditList(old(jobs), id, e, now)
              case None => updated == None
              case Some(snapshot) => updated == if w.Done? then Lookup(snapshot, id) else None
    {
      var i := 0;
      while i < |jobs| && jobs[i].id != id
        invariant 0 <= i <= |jobs| && forall k :: 0 <= k < i ==> jobs[k].id != id
      {
        i := i + 1;
      }
      assert i == Find(jobs, id);
      if i == |jobs| {
        return None;
      }
      var edited := EditJob(e, jobs[i], now);
      if edited.None? {
        return None;
      }
      EditKeepsIdentity(e, jobs[i], now);
      var snapshot := jobs[i := edited.value.(updatedAt := now)];
      FindAfterEdit(jobs, i, snapshot[i]);
      assert EditList(jobs, id, e, now) == Some(snapshot) && Lookup(snapshot, id) == Some(snapshot[i]);
      hide EditJob; hide EditList; hide Lookup; hide Find; hide BuildIndex;
      var ok := Commit(snapshot, w);
      return if ok then Some(snapshot[i]) else None;
    }

    method Compact(w: Write) returns (removed: Option<nat>)
      requires Valid()
      modifies this
      ensures Valid() && View() == Committed(old(View()), Truncated(old(jobs)), w)
      ensures removed == if w.Done? then Some(|old(jobs)| - |jobs|) else None
    {
      var before := |jobs|;
      var snapshot := TruncateJobs(jobs);
      TruncatedIsShort(jobs);
      var ok := Commit(snapshot, w);
      return if ok then Some(before - |snapshot|) else None;
    }

    method ArchiveCompleted(retain: nat, cap: nat, w1: Write, w2: Write) returns (moved: Option<nat>)
      requires Valid()
      modifies this
      ensures Valid() && View() == Archived(old(View()), retain, cap, w1, w2)
      ensures var ended := |Having(old(jobs), true)|;
              moved == if ended <= retain then Some(0) else if w1.Done? && w2.Done? then Some(ended - retain) else None
    {
      CountIsHaving(jobs);
      var moveCount := Surplus(jobs, retain);
      if moveCount == 0 {
        return Some(0);
      }
      var moveIds := Ids(OldestTerminal(jobs, moveCount));
      var archivedNow, active := Select(jobs, moveIds, true), Select(jobs, moveIds, false);
      var kept := archive + archivedNow;
      if |kept| > cap {
        kept := kept[|kept| - cap..];
      }
      if w1.Lost? {
        return None;
      }
      archive := kept;
      if w1.InDoubt? {
        return None;
      }
      var ok := Commit(active, w2);
      return if ok then Some(moveCount) else None;
    }

    method ClearFinished(w1: Write, w2: Write) returns (removed: Option<nat>)
      requires Valid()
      modifies this
      ensures Valid() && View() == Cleared(old(View()), w1, w2)
      ensures removed == if w1.Done? && (old(archive) == [] || w2.Done?)
                         then Some(|Having(old(jobs), true)| + |old(archive)|) else None
    {
      LiveIsHaving(jobs);
      var before := |jobs|;
      var active := Live(jobs);
      var ok := Commit(active, w1);
      if !ok {
        return None;
      }
      var archived := |archive|;
      if archived > 0 {
        if w2.Lost? {
          return None;
        }
        archive := [];
        if w2.InDoubt? {
          return None;
        }
      }
      return Some(before - |active| + archived);
    }

    method PruneArchive(retain: nat, w: Write) returns (removed: Option<nat>)
      requires Valid()
      modifies this
      ensures Valid()
              && View() == old(View()).(archive := if w.Lost? then old(archive) else LastJobs(old(archive), retain))
      ensures removed == if |old(archive)| <= retain then Some(0)
                         else if w.Done? then Some(|old(archive)| - retain) else None
    {
      if |archive| <= retain {
        return Some(0);
      }
      if w.Lost? {
        return None;
      }
      var surplus := |archive| - retain;
      archive := archive[surplus..];
      return if w.Done? then Some(surplus) else None;
    }
  }

  // ------------------------------------------------------------- properties

  predicate HasEnded(job: Job) {
    job.status.Succeeded? || job.status.Failed? || job.status.Canceled?
  }

  /** The jobs that have ended, or those that have not, in order. */
  function Having(jobs: seq<Job>, ended: bool): seq<Job> {
    if jobs == [] then []
    else (if HasEnded(jobs[0]) == ended then [jobs[0]] else []) + Having(jobs[1..], ended)
  }

  lemma {:induction false} CountIsHaving(jobs: seq<Job>)
    ensures TerminalCount(jobs) == |Having(jobs, true)|
  {
    if jobs != [] {
      CountIsHaving(jobs[1..]);
    }
  }

  lemma {:induction false} LiveIsHaving(jobs: seq<Job>)
    ensures Live(jobs) == Having(jobs, false) && |jobs| == |Having(jobs, false)| + |Having(jobs, true)|
  {
    if jobs != [] {
      LiveIsHaving(jobs[1..]);
    }
  }

  lemma {:induction false} OldestIsHaving(jobs: seq<Job>)
    ensures OldestTerminal(jobs, |jobs|) == Having(jobs, true)
  {
    if jobs != [] {
      OldestIsHaving(jobs[1..]);
      OldestIsAll(jobs[1..], |jobs| - 1);
      OldestIsAll(jobs[1..], |jobs|);
    }
  }

  lemma {:induction false} HavingStep(head: Job, rest: seq<Job>, ended: bool)
    ensures Having([head] + rest, ended) == (if HasEnded(head) == ended then [head] else []) + Having(rest, ended)
  {
    assert ([head] + rest)[1..] == rest;
  }

  lemma {:induction false} HavingSplit(a: seq<Job>, b: seq<Job>, ended: bool)
    ensures Having(a + b, ended) == Having(a, ended) + Having(b, ended)
    decreases |a|
  {
    if a == [] {
      assert a + b == b;
    } else {
      hide Having; hide HasEnded;
      var rest, head := a[1..], if HasEnded(a[0]) == ended then [a[0]] else [];
      HavingSplit(rest, b, ended);
      assert a == [a[0]] + rest && a + b == [a[0]] + (rest + b);
      HavingStep(a[0], rest, ended);
      HavingStep(a[0], rest + b, ended);
      Regroup(head, Having(rest, ended), Having(b, ended));
    }
  }

  lemma {:induction false} Regroup(a: seq<Job>, b: seq<Job>, c: seq<Job>)
    ensures a + (b + c) == (a + b) + c
  {
  }

  lemma {:induction false} NoneHaving(jobs: seq<Job>)
    ensures Having(Having(jobs, false), true) == []
  {
    if jobs != [] {
      var rest := Having(jobs[1..], false);
      NoneHaving(jobs[1..]);
      HavingStep(jobs[0], jobs[1..], false);
      HavingStep(jobs[0], rest, true);
      assert jobs == [jobs[0]] + jobs[1..];
      hide Having; hide HasEnded;
      assert [] + rest == rest;
    }
  }

  lemma {:induction false} TruncatedIsShort(jobs: seq<Job>)
    ensures |Truncated(jobs)| <= |jobs|
  {
    if |jobs| > MAX_JOBS {
      var _ := DropTerminalCuts(jobs, |jobs| - MAX_JOBS);
      hide DropTerminal; hide OldestTerminal; hide Live;
    }
  }

  /** Dropping and moving the oldest ended jobs, in the jobs' own words: up to a cut, what has
      ended goes, as many as asked for or all there are; behind it nothing is touched. */
  lemma {:induction false} OldestMeans(jobs: seq<Job>, n: nat) returns (cut: nat)
    ensures cut <= |jobs|
    ensures OldestTerminal(jobs, n) == Having(jobs[..cut], true)
    ensures DropTerminal(jobs, n) == Having(jobs[..cut], false) + jobs[cut..]
    ensures |Having(jobs[..cut], true)| == if n < |Having(jobs, true)| then n else |Having(jobs, true)|
  {
    cut := DropTerminalCuts(jobs, n);
    var before := jobs[..cut];
    CountIsHaving(jobs);
    CountIsHaving(before);
    LiveIsHaving(before);
    OldestIsHaving(before);
    OldestIsAll(before, cut);
    hide Having; hide OldestTerminal; hide DropTerminal; hide Live; hide TerminalCount;
  }

  /** A list over capacity loses its oldest ended jobs, as many as it is over, or all. */
  lemma {:induction false} TruncationCuts(jobs: seq<Job>) returns (cut: nat)
    ensures cut <= |jobs| && (|jobs| <= 500 ==> Truncated(jobs) == jobs)
    ensures |jobs| > 500 ==>
              var over, ended := |jobs| - 500, |Having(jobs, true)|;
              && Truncated(jobs) == Having(jobs[..cut], false) + jobs[cut..]
              && |Having(jobs[..cut], true)| == if over < ended then over else ended
  {
    cut := 0;
    if |jobs| > MAX_JOBS {
      cut := OldestMeans(jobs, |jobs| - MAX_JOBS);
    }
    hide Having; hide DropTerminal; hide OldestTerminal;
  }

  /** Archiving, in the jobs' own words: it does nothing exactly if no more jobs have ended
      than are retained; otherwise the oldest ended jobs beyond those move, in order, behind
      the archived ones, of which the newest stay up to the cap. */
  lemma {:induction false} ArchivingMeans(f: Files, retain: nat, cap: nat) returns (cut: nat)
    requires DistinctIds(f.mem)
    ensures var g, ended := Archived(f, retain, cap, Done, Done), |Having(f.mem, true)|;
            && cut <= |f.mem|
            && (g == f <==> ended <= retain)
            && |Having(g.mem, true)| == (if ended < retain then ended else retain)
            && (ended > retain ==>
                  var all := f.archive + Having(f.mem[..cut], true);
                  && |Having(f.mem[..cut], true)| == ended - retain
                  && g.mem == Having(f.mem[..cut], false) + f.mem[cut..] && g.disk == g.mem
                  && g.archive == if |all| > cap then all[|all| - cap..] else all)
  {
    cut := 0;
    var ended := |Having(f.mem, true)|;
    CountIsHaving(f.mem);
    if ended > retain {
      cut := OldestMeans(f.mem, ended - retain);
      ArchivedIs(f, retain, cap, Done, Done);
      var before, behind := f.mem[..cut], f.mem[cut..];
      assert f.mem == before + behind;
      HavingSplit(before, behind, true);
      HavingSplit(Having(before, false), behind, true);
      NoneHaving(before);
    }
    hide Having; hide Archived; hide OldestTerminal; hide DropTerminal; hide TerminalCount; hide DistinctIds;
  }

  /** Clearing, for every fate of its two writes: what has not ended stays on the list, and
      then the archive is emptied. */
  lemma {:induction false} ClearingMeans(f: Files, w1: Write, w2: Write)
    ensures var g, left := Cleared(f, w1, w2), Having(f.mem, false);
            && g.mem == (if w1.Done? then left else f.mem)
            && g.disk == (if w1.Lost? then f.disk else left)
            && g.archive == if w1.Done? && !w2.Lost? then [] else f.archive
  {
    LiveIsHaving(f.mem);
    hide Live; hide Having;
  }

  lemma {:induction false} EditKeepsIdentity(e: Edit, job: Job, now: int)
    ensures EditJob(e, job, now).Some? ==>
              var after := EditJob(e, job, now).value;
              && after.id == job.id && after.kind == job.kind && after.payload == job.payload
              && after.key == job.key && after.createdAt == job.createdAt
              && (!e.Requeue? ==> after.attempt == job.attempt)
              && (!e.Requeue? && after.status.Queued? ==> job.status.Queued?)
              && (IsLive(after) ==> IsLive(job) || e.Requeue?)
  {
  }

  /** The life of a job, over all updates the program makes: who may bring it where. */
  lemma {:induction false} LifeOfAJob(e: Edit, job: Job, now: int)
    requires EditJob(e, job, now).Some? && EditJob(e, job, now).value.status != job.status
    ensures match EditJob(e, job, now).value.status
            case Queued =>
              && e.Requeue? && job.status.Failed?
              && EditJob(e, job, now).value
                 == job.(status := Queued, progress := 0, attempt := e.attempt, nextAttemptAt := Some(e.dueAt),
                         startedAt := None, finishedAt := None)
            case Running =>
              && e.Claim? && job.status.Queued? && job.priority == e.priority
              && EditJob(e, job, now).value == job.(status := Running, startedAt := Some(now))
            case Succeeded => e == Complete(true) && job.status.Running?
            case Canceled =>
              || (e.Cancel? && IsLive(job) && (job.status.Running? ==> job.kind.MetadataScrape?))
              || e.SkipPush? || e.SkipDuplicate?
            case Failed => job.status.Running? || e.FailMissing? || e.Interrupt? || e.QueueUnavailable?
    ensures IsTerminal(EditJob(e, job, now).value) ==>
              EditJob(e, job, now).value.finishedAt == Some(now) && EditJob(e, job, now).value.progress == 100
  {
  }

  /** The job has this one's key and is queued or running. */
  predicate IsTwin(j: Job, job: Job) {
    job.key.Some? && j.key == job.key && (j.status.Queued? || j.status.Running?)
  }

  /** Which live job a submission finds: of its twins the one listed last. */
  lemma {:induction false} ExistingIsNewest(jobs: seq<Job>, job: Job) returns (i: nat)
    ensures Existing(jobs, job).None? ==> forall j :: j in jobs ==> !IsTwin(j, job)
    ensures Existing(jobs, job).Some? ==>
              && i < |jobs| && jobs[i] == Existing(jobs, job).value && IsTwin(jobs[i], job)
              && forall k :: i < k < |jobs| ==> !IsTwin(jobs[k], job)
  {
    i := 0;
    forall j ensures SameLiveKey(j, job) <==> IsTwin(j, job) {
    }
    hide SameLiveKey; hide IsTwin;
    if jobs != [] {
      var n := |jobs| - 1;
      if SameLiveKey(jobs[n], job) {
        i := n;
      } else {
        i := ExistingIsNewest(jobs[..n], job);
        assert forall k :: 0 <= k < n ==> jobs[..n][k] == jobs[k];
      }
    }
  }

  lemma {:induction false} FindAfterEdit(jobs: seq<Job>, i: nat, edited: Job)
    requires i < |jobs| && Find(jobs, edited.id) == i && jobs[i].id == edited.id
    ensures Find(jobs[i := edited], edited.id) == i
  {
    var snapshot := jobs[i := edited];
    var r := Find(snapshot, edited.id);
    assert snapshot[i].id == edited.id;
  }

  lemma {:induction false} IndexAt(jobs: seq<Job>, id: string)
    ensures id in BuildIndex(jobs) <==> HasId(jobs, id)
    ensures id in BuildIndex(jobs) ==> BuildIndex(jobs)[id] < |jobs| && jobs[BuildIndex(jobs)[id]].id == id
    ensures id in BuildIndex(jobs) ==> forall i :: BuildIndex(jobs)[id] < i < |jobs| ==> jobs[i].id != id
  {
    if jobs != [] {
      var n := |jobs| - 1;
      IndexAt(jobs[..n], id);
      if HasId(jobs[..n], id) {
        var i :| 0 <= i < n && jobs[..n][i].id == id;
        assert jobs[i].id == id;
      }
      if HasId(jobs, id) {
        var i :| 0 <= i < |jobs| && jobs[i].id == id;
        assert i < n ==> jobs[..n][i].id == id;
      }
      assert forall i :: 0 <= i < n ==> jobs[..n][i] == jobs[i];
    }
  }

  lemma {:induction false} IndexBounds(jobs: seq<Job>)
    ensures forall id :: id in BuildIndex(jobs) ==> BuildIndex(jobs)[id] < |jobs| && jobs[BuildIndex(jobs)[id]].id == id
    ensures forall id :: id in BuildIndex(jobs) <==> HasId(jobs, id)
    ensures forall i :: 0 <= i < |jobs| ==> jobs[i].id in BuildIndex(jobs) && i <= BuildIndex(jobs)[jobs[i].id]
  {
    hide BuildIndex;
    forall id
      ensures id in BuildIndex(jobs) <==> HasId(jobs, id)
      ensures id in BuildIndex(jobs) ==> BuildIndex(jobs)[id] < |jobs| && jobs[BuildIndex(jobs)[id]].id == id
    {
      IndexAt(jobs, id);
    }
    forall i | 0 <= i < |jobs| ensures jobs[i].id in BuildIndex(jobs) && i <= BuildIndex(jobs)[jobs[i].id] {
      IndexAt(jobs, jobs[i].id);
      assert HasId(jobs, jobs[i].id);
    }
  }

  lemma {:induction false} IndexIsFind(jobs: seq<Job>)
    requires DistinctIds(jobs)
    ensures forall id :: id in BuildIndex(jobs) ==> BuildIndex(jobs)[id] == Find(jobs, id)
    ensures forall id :: id in BuildIndex(jobs) <==> Find(jobs, id) < |jobs|
  {
    IndexBounds(jobs);
  }

  /** The id index finds what a search of the list finds, for every id, exactly
      when no id is on the list twice. */
  lemma {:induction false} IndexAgreesIff(jobs: seq<Job>)
    ensures (forall id :: id in BuildIndex(jobs) ==> BuildIndex(jobs)[id] == Find(jobs, id)) <==> DistinctIds(jobs)
  {
    IndexBounds(jobs);
    if DistinctIds(jobs) {
      IndexIsFind(jobs);
    } else {
      var i, j :| 0 <= i < j < |jobs| && jobs[i].id == jobs[j].id;
      assert Find(jobs, jobs[i].id) <= i;
      assert BuildIndex(jobs)[jobs[j].id] >= j;
    }
  }

  /** Dropping terminal jobs cuts the list in two: before the cut only the live jobs
      stay, behind it nothing is touched; the terminal jobs before the cut are the
      ones dropped, as many as asked for or all there are. */
  lemma {:induction false} DropTerminalCuts(jobs: seq<Job>, n: nat) returns (cut: nat)
    ensures cut <= |jobs|
    ensures DropTerminal(jobs, n) == Live(jobs[..cut]) + jobs[cut..]
    ensures OldestTerminal(jobs, n) == OldestTerminal(jobs[..cut], cut)
    ensures TerminalCount(jobs[..cut]) == if n < TerminalCount(jobs) then n else TerminalCount(jobs)
    ensures |DropTerminal(jobs, n)| == |jobs| - TerminalCount(jobs[..cut])
  {
    if jobs == [] || n == 0 {
      cut := 0;
      assert jobs[..0] == [];
    } else {
      var head, rest := jobs[0], jobs[1..];
      var c := DropTerminalCuts(rest, if IsTerminal(head) then n - 1 else n);
      cut := c + 1;
      var before := rest[..c];
      assert jobs == [head] + rest && jobs[..cut] == [head] + before && jobs[cut..] == rest[c..];
      Front(head, rest, n);
      Front(head, before, cut);
      OldestIsAll(before, c);
      OldestIsAll(before, cut);
      hide Live; hide TerminalCount; hide DropTerminal; hide OldestTerminal; hide IsTerminal;
      assert [head] + (Live(before) + rest[c..]) == ([head] + Live(before)) + rest[c..];
    }
  }

  lemma {:induction false} Front(head: Job, rest: seq<Job>, n: nat)
    requires n > 0
    ensures Live([head] + rest) == if IsTerminal(head) then Live(rest) else [head] + Live(rest)
    ensures TerminalCount([head] + rest) == TerminalCount(rest) + if IsTerminal(head) then 1 else 0
    ensures DropTerminal([head] + rest, n)
            == if IsTerminal(head) then DropTerminal(rest, n - 1) else [head] + DropTerminal(rest, n)
    ensures OldestTerminal([head] + rest, n)
            == if IsTerminal(head) then [head] + OldestTerminal(rest, n - 1) else OldestTerminal(rest, n)
  {
    hide IsTerminal;
    assert ([head] + rest)[1..] == rest;
  }

  lemma {:induction false} OldestIsAll(jobs: seq<Job>, n: nat)
    requires n >= |jobs|
    ensures OldestTerminal(jobs, n) == OldestTerminal(jobs, |jobs|)
  {
    if jobs != [] {
      OldestIsAll(jobs[1..], n - 1);
      OldestIsAll(jobs[1..], n);
      OldestIsAll(jobs[1..], |jobs|);
    }
  }

  lemma {:induction false} SameLengthIsSame(jobs: seq<Job>)
    ensures |Truncated(jobs)| == |jobs| ==> Truncated(jobs) == jobs
  {
    if |jobs| > MAX_JOBS {
      var cut := DropTerminalCuts(jobs, |jobs| - MAX_JOBS);
      if TerminalCount(jobs[..cut]) == 0 {
        NoTerminalIsLive(jobs[..cut]);
        assert jobs == jobs[..cut] + jobs[cut..];
      }
    }
  }

  lemma {:induction false} NoTerminalIsLive(jobs: seq<Job>)
    requires TerminalCount(jobs) == 0
    ensures Live(jobs) == jobs
  {
    if jobs != [] {
      NoTerminalIsLive(jobs[1..]);
    }
  }

  /** Capacity is restored by evicting terminal jobs only, as far as there are any. */
  lemma {:induction false} TruncationMeans(jobs: seq<Job>)
    ensures Live(Truncated(jobs)) == Live(jobs)
    ensures |jobs| > MAX_JOBS && TerminalCount(jobs) >= |jobs| - MAX_JOBS ==> |Truncated(jobs)| == MAX_JOBS
    ensures |jobs| > MAX_JOBS && TerminalCount(jobs) < |jobs| - MAX_JOBS ==> Truncated(jobs) == Live(jobs)
  {
    if |jobs| > MAX_JOBS {
      var cut := DropTerminalCuts(jobs, |jobs| - MAX_JOBS);
      var front, back := jobs[..cut], jobs[cut..];
      assert jobs == front + back;
      hide Live; hide TerminalCount; hide DropTerminal; hide OldestTerminal;
      FrontCleared(front, back);
      TerminalSplit(front, back);
    }
  }

  lemma {:induction false} FrontCleared(front: seq<Job>, back: seq<Job>)
    ensures Live(Live(front) + back) == Live(front + back)
    ensures TerminalCount(back) == 0 ==> Live(front) + back == Live(front + back)
  {
    hide Live; hide TerminalCount;
    LiveSplit(front, back);
    LiveTwice(front);
    LiveSplit(Live(front), back);
    if TerminalCount(back) == 0 {
      NoTerminalIsLive(back);
    }
  }

  lemma {:induction false} LiveSplit(a: seq<Job>, b: seq<Job>)
    ensures Live(a + b) == Live(a) + Live(b)
  {
    if a == [] {
      assert a + b == b;
    } else {
      var rest := a[1..];
      assert (a + b)[0] == a[0] && (a + b)[1..] == rest + b;
      LiveSplit(rest, b);
      var head := if IsTerminal(a[0]) then [] else [a[0]];
      assert Live(a + b) == head + Live(rest + b) && Live(a) == head + Live(rest);
      hide Live; hide IsTerminal;
      assert head + (Live(rest) + Live(b)) == (head + Live(rest)) + Live(b);
    }
  }

  lemma {:induction false} TerminalSplit(a: seq<Job>, b: seq<Job>)
    ensures TerminalCount(a + b) == TerminalCount(a) + TerminalCount(b)
  {
    if a == [] {
      assert a + b == b;
    } else {
      TerminalSplit(a[1..], b);
      assert (a + b)[1..] == a[1..] + b;
    }
  }

  lemma {:induction false} LiveTwice(jobs: seq<Job>)
    ensures Live(Live(jobs)) == Live(jobs)
    ensures forall j :: j in Live(jobs) <==> j in jobs && !IsTerminal(j)
  {
    if jobs != [] {
      LiveTwice(jobs[1..]);
      if !IsTerminal(jobs[0]) {
        var l := Live(jobs);
        assert l == [jobs[0]] + Live(jobs[1..]);
        assert l[1..] == Live(jobs[1..]);
      } else {
        assert Live(jobs) == Live(jobs[1..]);
      }
    }
  }

  // -------------------------------------------------------------- archiving

  /** With distinct ids, selecting by id is selecting the oldest surplus. */
  lemma {:induction false} SelectIsDrop(jobs: seq<Job>, n: nat)
    requires DistinctIds(jobs)
    ensures var ids := Ids(OldestTerminal(jobs, n));
            Select(jobs, ids, true) == OldestTerminal(jobs, n) && Select(jobs, ids, false) == DropTerminal(jobs, n)
  {
    var ids := Ids(OldestTerminal(jobs, n));
    if jobs == [] {
    } else if n == 0 {
      SelectNone(jobs, ids);
    } else {
      var m := if IsTerminal(jobs[0]) then n - 1 else n;
      var rest := jobs[1..];
      SelectIsDrop(rest, m);
      OldestFromList(rest, m);
      var inner := Ids(OldestTerminal(rest, m));
      assert forall j :: j in rest ==> j.id != jobs[0].id;
      assert ids == inner + if IsTerminal(jobs[0]) then {jobs[0].id} else {} by {
        if IsTerminal(jobs[0]) {
          var o := OldestTerminal(jobs, n);
          assert o == [jobs[0]] + OldestTerminal(rest, m);
          assert forall i :: 0 < i < |o| ==> o[i] == OldestTerminal(rest, m)[i - 1];
          assert forall i :: 0 <= i < |OldestTerminal(rest, m)| ==> OldestTerminal(rest, m)[i] == o[i + 1];
          assert o[0] == jobs[0];
        }
      }
      assert jobs[0].id !in inner;
      SelectSame(rest, ids, inner);
    }
  }

  lemma {:induction false} OldestFromList(jobs: seq<Job>, n: nat)
    ensures forall j :: j in OldestTerminal(jobs, n) ==> j in jobs && IsTerminal(j)
  {
    if jobs != [] && n > 0 {
      OldestFromList(jobs[1..], if IsTerminal(jobs[0]) then n - 1 else n);
    }
  }

  lemma {:induction false} SelectNone(jobs: seq<Job>, ids: set<string>)
    requires forall j :: j in jobs ==> j.id !in ids
    ensures Select(jobs, ids, true) == [] && Select(jobs, ids, false) == jobs
  {
    if jobs != [] {
      SelectNone(jobs[1..], ids);
    }
  }

  lemma {:induction false} SelectSame(jobs: seq<Job>, a: set<string>, b: set<string>)
    requires forall j :: j in jobs ==> (j.id in a <==> j.id in b)
    ensures Select(jobs, a, true) == Select(jobs, b, true) && Select(jobs, a, false) == Select(jobs, b, false)
  {
    if jobs != [] {
      SelectSame(jobs[1..], a, b);
    }
  }

  lemma {:induction false} DropPartitions(jobs: seq<Job>, n: nat)
    ensures multiset(jobs) == multiset(DropTerminal(jobs, n)) + multiset(OldestTerminal(jobs, n))
    ensures Live(DropTerminal(jobs, n)) == Live(jobs)
  {
    if jobs != [] && n > 0 {
      assert jobs == [jobs[0]] + jobs[1..];
      DropPartitions(jobs[1..], if IsTerminal(jobs[0]) then n - 1 else n);
    }
  }

  /** What the archive would hold without its cap, and what the cap cuts off. */
  function ArchiveWith(f: Files, n: nat): seq<Job> {
    f.archive + OldestTerminal(f.mem, n)
  }

  function CutOff(all: seq<Job>, cap: nat): seq<Job> {
    if |all| > cap then all[..|all| - cap] else []
  }

  lemma {:induction false} CutOffRest(all: seq<Job>, cap: nat)
    ensures all == CutOff(all, cap) + LastJobs(all, cap)
  {
  }

  lemma {:induction false} ArchivedIs(f: Files, retain: nat, cap: nat, w1: Write, w2: Write)
    requires DistinctIds(f.mem) && Surplus(f.mem, retain) > 0
    ensures var n := Surplus(f.mem, retain);
            Archived(f, retain, cap, w1, w2) ==
            match w1
            case Lost => f
            case InDoubt => f.(archive := LastJobs(ArchiveWith(f, n), cap))
            case Done => Committed(f.(archive := LastJobs(ArchiveWith(f, n), cap)), DropTerminal(f.mem, n), w2)
  {
    SelectIsDrop(f.mem, Surplus(f.mem, retain));
    hide Select; hide OldestTerminal; hide DropTerminal; hide TerminalCount; hide Ids; hide LastJobs; hide DistinctIds;
  }

  /** Archiving moves the oldest surplus terminal jobs and nothing else: what is on
      the list, in the archive or cut off by the archive's cap is what there was. */
  lemma {:induction false} ArchivingConserves(f: Files, retain: nat, cap: nat)
    requires DistinctIds(f.mem) && f.mem == f.disk
    ensures var g, n := Archived(f, retain, cap, Done, Done), Surplus(f.mem, retain);
            if n == 0 then g == f
            else
              && g.mem == g.disk == DropTerminal(f.mem, n) && Live(g.mem) == Live(f.mem)
              && g.archive == LastJobs(ArchiveWith(f, n), cap)
              && multiset(g.disk) + multiset(g.archive) + multiset(CutOff(ArchiveWith(f, n), cap))
                 == multiset(f.disk) + multiset(f.archive)
  {
    var n := Surplus(f.mem, retain);
    if n > 0 {
      ArchivedIs(f, retain, cap, Done, Done);
      DropPartitions(f.mem, n);
      CutOffRest(ArchiveWith(f, n), cap);
      hide Archived; hide OldestTerminal; hide DropTerminal; hide Live; hide LastJobs; hide CutOff; hide Surplus;
      hide DistinctIds;
      var all := ArchiveWith(f, n);
      assert multiset(all) == multiset(CutOff(all, cap)) + multiset(LastJobs(all, cap));
      assert multiset(all) == multiset(f.archive) + multiset(OldestTerminal(f.mem, n));
      Balance(multiset(DropTerminal(f.mem, n)), multiset(OldestTerminal(f.mem, n)), multiset(CutOff(all, cap)),
              multiset(LastJobs(all, cap)), multiset(f.archive));
    }
  }

  lemma {:induction false} Balance(kept: multiset<Job>, moved: multiset<Job>, cut: multiset<Job>,
          last: multiset<Job>, old_: multiset<Job>)
    requires cut + last == old_ + moved
    ensures kept + last + cut == (kept + moved) + old_
  {
    forall j ensures (kept + last + cut)[j] == ((kept + moved) + old_)[j] {
      assert (cut + last)[j] == (old_ + moved)[j];
    }
  }

  /** Whatever becomes of the two writes, and whatever an earlier write in doubt has left in
      the job file: an archived job stays archived, and a listed job is in one of the files
      afterwards or the job file has not been touched; unless it is among the oldest the
      archive's cap cuts off. */
  lemma {:induction false} ArchivingSurvivesCrash(f: Files, retain: nat, cap: nat, w1: Write, w2: Write, j: Job)
    requires DistinctIds(f.mem)
    ensures var g, n := Archived(f, retain, cap, w1, w2), Surplus(f.mem, retain);
            && (j in f.archive ==> j in g.archive || j in CutOff(ArchiveWith(f, n), cap))
            && (j in f.mem ==> j in g.disk || j in g.archive || j in CutOff(ArchiveWith(f, n), cap) || g.disk == f.disk)
            && (g.disk == f.disk || (n > 0 && g.disk == DropTerminal(f.mem, n)))
  {
    var n := Surplus(f.mem, retain);
    if n > 0 {
      ArchivedIs(f, retain, cap, w1, w2);
      DropPartitions(f.mem, n);
      CutOffRest(ArchiveWith(f, n), cap);
      hide Archived; hide OldestTerminal; hide DropTerminal; hide LastJobs; hide CutOff; hide Surplus; hide DistinctIds;
      var all := ArchiveWith(f, n);
      assert j in f.mem ==> j in multiset(f.mem);
      assert j in f.mem ==> j in DropTerminal(f.mem, n) || j in OldestTerminal(f.mem, n);
      assert j in all ==> j in CutOff(all, cap) || j in LastJobs(all, cap);
    }
  }
}
