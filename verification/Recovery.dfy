/** `recover_jobs` of `src/jobs/queue.rs`: what start-up does with the jobs that a
    previous process left queued or running. */
module Recovery {
  import opened Options
  import opened JobModel
  import opened Store

  /** The list as `JobStore::list` gives it: newest first. */
  function NewestFirst(jobs: seq<Job>): seq<Job> {
    if jobs == [] then [] else NewestFirst(jobs[1..]) + [jobs[0]]
  }

  function InsertByCreation(job: Job, sorted: seq<Job>): seq<Job> {
    if sorted == [] || job.createdAt <= sorted[0].createdAt then [job] + sorted
    else [sorted[0]] + InsertByCreation(job, sorted[1..])
  }

  /** A stable sort by creation time. */
  function SortByCreation(jobs: seq<Job>): seq<Job> {
    if jobs == [] then [] else InsertByCreation(jobs[0], SortByCreation(jobs[1..]))
  }

  /** Interrupted work whose keys must not run again unasked. */
  function InterruptedKeys(jobs: seq<Job>): set<string> {
    set i | 0 <= i < |jobs| && jobs[i].status.Running? && !jobs[i].kind.PushDispatch? && jobs[i].key.Some? ::
      jobs[i].key.value
  }

  datatype Verdict = Leave | Mark(edit: Edit) | Resume

  predicate Resumable(job: Job) {
    job.status.Queued? && !job.kind.PushDispatch?
  }

  function Judge(job: Job, seen: set<string>, interrupted: set<string>): Verdict {
    match job.status
    case Queued =>
      if job.kind.PushDispatch? then Mark(SkipPush)
      else if job.key.Some? && (job.key.value in interrupted || job.key.value in seen) then Mark(SkipDuplicate)
      else Resume
    case Running => if job.kind.PushDispatch? then Mark(SkipPush) else Mark(Interrupt)
    case _ => Leave
  }

  function SeenAfter(job: Job, seen: set<string>, interrupted: set<string>): set<string> {
    if Resumable(job) && job.key.Some? && job.key.value !in interrupted then seen + {job.key.value} else seen
  }

  /** The files after one job's verdict; `w` is the fate of the write, if there is one. */
  function Carry(f: Files, job: Job, v: Verdict, now: int, w: Write): Files {
    if v.Mark? then Updated(f, job.id, v.edit, now, w) else f
  }

  function Recover(f: Files, todo: seq<Job>, seen: set<string>, interrupted: set<string>, now: int,
          fate: string -> Write): Files
    decreases |todo|
  {
    if todo == [] then f
    else
      var g := Carry(f, todo[0], Judge(todo[0], seen, interrupted), now, fate(todo[0].id));
      Recover(g, todo[1..], SeenAfter(todo[0], seen, interrupted), interrupted, now, fate)
  }

  /** The jobs to be queued again, oldest first. */
  function Resumed(todo: seq<Job>, seen: set<string>, interrupted: set<string>): seq<Job>
    decreases |todo|
  {
    if todo == [] then []
    else
      (if Judge(todo[0], seen, interrupted).Resume? then [todo[0]] else [])
      + Resumed(todo[1..], SeenAfter(todo[0], seen, interrupted), interrupted)
  }

  function RecoveryOrder(jobs: seq<Job>): seq<Job> {
    SortByCreation(NewestFirst(jobs))
  }

  function RecoverAll(f: Files, now: int, fate: string -> Write): Files {
    Recover(f, RecoveryOrder(f.mem), {}, InterruptedKeys(RecoveryOrder(f.mem)), now, fate)
  }

  function Signals(jobs: seq<Job>): seq<Job> {
    Resumed(RecoveryOrder(jobs), {}, InterruptedKeys(RecoveryOrder(jobs)))
  }

  function FirstIds(jobs: seq<Job>, n: nat): seq<string> {
    seq(if |jobs| < n then |jobs| else n, i requires 0 <= i < |jobs| => jobs[i].id)
  }

  lemma {:induction false} OneMore(f: Files, jobs: seq<Job>, i: nat, seen: set<string>, interrupted: set<string>,
          now: int, fate: string -> Write)
    requires i <= |jobs|
    ensures i == |jobs| ==>
            Recover(f, jobs[i..], seen, interrupted, now, fate) == f && Resumed(jobs[i..], seen, interrupted) == []
    ensures i < |jobs| ==>
              Recover(f, jobs[i..], seen, interrupted, now, fate)
              == Recover(Carry(f, jobs[i], Judge(jobs[i], seen, interrupted), now, fate(jobs[i].id)),
                         jobs[i + 1..], SeenAfter(jobs[i], seen, interrupted), interrupted, now, fate)
    ensures i < |jobs| ==>
              Resumed(jobs[i..], seen, interrupted)
              == (if Judge(jobs[i], seen, interrupted).Resume? then [jobs[i]] else [])
                 + Resumed(jobs[i + 1..], SeenAfter(jobs[i], seen, interrupted), interrupted)
  {
    hide Judge; hide Carry; hide SeenAfter;
    if i < |jobs| {
      assert jobs[i..][1..] == jobs[i + 1..];
    }
  }

  /** Runs before the worker; the signal channel has room for `free` ids and nobody
      is reading it, so ids beyond that are left for the worker to find. */
  method RecoverJobs(store: JobStore, free: nat, now: int, fate: string -> Write) returns (sent: seq<string>)
    requires store.Valid()
    modifies store
    ensures store.Valid() && store.View() == RecoverAll(old(store.View()), now, fate)
    ensures sent == FirstIds(Signals(old(store.jobs)), free)
  {
    var jobs := RecoveryOrder(store.jobs);
    hide Recover; hide Resumed; hide RecoveryOrder; hide Judge; hide Carry; hide SeenAfter; hide JobStore.Valid;
    hide InterruptedKeys; hide FirstIds;
    var queued: seq<Job> := [];
    var seen: set<string> := {};
    var interrupted := InterruptedKeys(jobs);
    assert jobs[0..] == jobs;
    ghost var all, signals := RecoverAll(store.View(), now, fate), Signals(store.jobs);
    hide RecoverAll; hide Signals;
    for i := 0 to |jobs|
      invariant store.Valid()
      invariant Recover(store.View(), jobs[i..], seen, interrupted, now, fate) == all
      invariant queued + Resumed(jobs[i..], seen, interrupted) == signals
    {
      OneMore(store.View(), jobs, i, seen, interrupted, now, fate);
      var resume, nowSeen := RecoverOne(store, jobs[i], seen, interrupted, now, fate(jobs[i].id));
      ghost var later := Resumed(jobs[i + 1..], nowSeen, interrupted);
      if resume {
        assert queued + ([jobs[i]] + later) == (queued + [jobs[i]]) + later;
        queued := queued + [jobs[i]];
      } else {
        assert [] + later == later;
      }
      seen := nowSeen;
    }
    OneMore(store.View(), jobs, |jobs|, seen, interrupted, now, fate);
    sent := SendSignals(queued, free);
  }

  // One iteration of the loop over the old jobs.
  method RecoverOne(store: JobStore, job: Job, seen: set<string>, interrupted: set<string>, now: int, w: Write)
    returns (resume: bool, nowSeen: set<string>)
    requires store.Valid()
    modifies store
    ensures store.Valid() && store.View() == Carry(old(store.View()), job, Judge(job, seen, interrupted), now, w)
    ensures resume == Judge(job, seen, interrupted).Resume? && nowSeen == SeenAfter(job, seen, interrupted)
  {
    hide EditList; hide JobStore.Valid;
    resume, nowSeen := false, seen;
    match job.status {
      case Queued =>
        if job.kind.PushDispatch? {
          var _ := store.UpdateIf(job.id, SkipPush, now, w);
        } else {
          var duplicate := false;
          if job.key.Some? {
            duplicate := job.key.value in interrupted || job.key.value in seen;
            if job.key.value !in interrupted {
              nowSeen := seen + {job.key.value};
            }
          }
          if duplicate {
            var _ := store.UpdateIf(job.id, SkipDuplicate, now, w);
          } else {
            resume := true;
          }
        }
      case Running =>
        var e := if job.kind.PushDispatch? then SkipPush else Interrupt;
        var _ := store.UpdateIf(job.id, e, now, w);
      case _ =>
    }
  }

  method SendSignals(queued: seq<Job>, free: nat) returns (sent: seq<string>)
    ensures sent == FirstIds(queued, free)
  {
    sent := [];
    for i := 0 to |queued|
      invariant sent == FirstIds(queued[..i], free)
    {
      if |sent| < free {
        sent := sent + [queued[i].id];
      }
    }
    assert queued[..|queued|] == queued;
  }

  // ---------------------------------------------------------------- the sort

  ghost predicate Sorted(jobs: seq<Job>) {
    forall i, j :: 0 <= i < j < |jobs| ==> jobs[i].createdAt <= jobs[j].createdAt
  }

  lemma {:induction false} InsertKeeps(job: Job, sorted: seq<Job>)
    ensures multiset(InsertByCreation(job, sorted)) == multiset(sorted) + multiset{job}
    ensures forall j :: j in InsertByCreation(job, sorted) ==> j == job || j in sorted
  {
    if sorted != [] && job.createdAt > sorted[0].createdAt {
      InsertKeeps(job, sorted[1..]);
      assert sorted == [sorted[0]] + sorted[1..];
    }
  }

  lemma {:induction false} InsertSorts(job: Job, sorted: seq<Job>)
    requires Sorted(sorted)
    ensures Sorted(InsertByCreation(job, sorted))
  {
    if sorted != [] && job.createdAt > sorted[0].createdAt {
      InsertSorts(job, sorted[1..]);
      InsertKeeps(job, sorted[1..]);
      var r := InsertByCreation(job, sorted[1..]);
      forall i | 0 <= i < |r| ensures sorted[0].createdAt <= r[i].createdAt {
        assert r[i] in r;
      }
    }
  }

  lemma {:induction false} SortSorts(jobs: seq<Job>)
    ensures Sorted(SortByCreation(jobs)) && multiset(SortByCreation(jobs)) == multiset(jobs)
  {
    if jobs != [] {
      SortSorts(jobs[1..]);
      InsertSorts(jobs[0], SortByCreation(jobs[1..]));
      InsertKeeps(jobs[0], SortByCreation(jobs[1..]));
      assert jobs == [jobs[0]] + jobs[1..];
    }
  }

  lemma {:induction false} ReverseKeeps(jobs: seq<Job>)
    ensures multiset(NewestFirst(jobs)) == multiset(jobs)
  {
    if jobs != [] {
      ReverseKeeps(jobs[1..]);
      assert jobs == [jobs[0]] + jobs[1..];
    }
  }

  lemma {:induction false} DistinctByMultiset(a: seq<Job>, b: seq<Job>)
    requires multiset(a) == multiset(b) && DistinctIds(a)
    ensures DistinctIds(b) && forall j :: j in a <==> j in b
  {
    forall j ensures j in a <==> j in b {
      assert j in a <==> j in multiset(a);
      assert j in b <==> j in multiset(b);
    }
    if x, y :| 0 <= x < y < |b| && b[x].id == b[y].id {
      assert b[x] in a && b[y] in a;
      assert b[x] == b[y];
      assert b == b[..x] + [b[x]] + b[x + 1..y] + [b[y]] + b[y + 1..];
      assert multiset(b)[b[x]] >= 2;
      OncePerId(a, b[x]);
      assert false;
    }
  }

  lemma {:induction false} OncePerId(a: seq<Job>, j: Job)
    requires DistinctIds(a)
    ensures multiset(a)[j] <= 1
  {
    if a != [] {
      assert a == [a[0]] + a[1..];
      OncePerId(a[1..], j);
      if a[0] == j {
        assert forall k :: 0 <= k < |a[1..]| ==> a[1..][k].id != j.id;
        assert j !in multiset(a[1..]);
      }
    }
  }

  /** The order is by creation, and has the same jobs. */
  lemma {:induction false} OrderKeeps(jobs: seq<Job>)
    requires DistinctIds(jobs)
    ensures var order := RecoveryOrder(jobs);
            Sorted(order) && DistinctIds(order) && |order| == |jobs| && forall j :: j in order <==> j in jobs
  {
    SortSorts(NewestFirst(jobs));
    ReverseKeeps(jobs);
    var order := RecoveryOrder(jobs);
    DistinctByMultiset(jobs, order);
    assert |multiset(order)| == |order| && |multiset(jobs)| == |jobs|;
  }

  // ---------------------------------------------------- what a verdict does

  /** The job as its verdict leaves it. */
  function Settled(job: Job, seen: set<string>, interrupted: set<string>, now: int): Job {
    match Judge(job, seen, interrupted)
    case Mark(e) => (match EditJob(e, job, now) case Some(j) => j.(updatedAt := now) case None => job)
    case _ => job
  }

  /** Keys of the jobs before position `n` that start-up queues again or would have. */
  function SeenBefore(order: seq<Job>, n: nat, interrupted: set<string>): set<string>
    requires n <= |order|
  {
    set k | 0 <= k < n && Resumable(order[k]) && order[k].key.Some? && order[k].key.value !in interrupted ::
      order[k].key.value
  }

  lemma {:induction false} SeenGrows(order: seq<Job>, n: nat, interrupted: set<string>)
    requires n < |order|
    ensures SeenAfter(order[n], SeenBefore(order, n, interrupted), interrupted) == SeenBefore(order, n + 1, interrupted)
  {
    var after := SeenAfter(order[n], SeenBefore(order, n, interrupted), interrupted);
    forall x ensures x in after <==> x in SeenBefore(order, n + 1, interrupted) {
      if x in SeenBefore(order, n + 1, interrupted) {
        var k :| 0 <= k < n + 1 && Resumable(order[k]) && order[k].key.Some?
                 && order[k].key.value !in interrupted && order[k].key.value == x;
        assert k < n ==> x in SeenBefore(order, n, interrupted);
      }
    }
  }

  /** How start-up ends a job: work that may have had effects counts as failed, pushes and
      duplicates as canceled. */
  function EndedAtStart(job: Job, now: int): Job {
    var status := if job.status.Running? && !job.kind.PushDispatch? then JobStatus.Failed else JobStatus.Canceled;
    job.(status := status, progress := 100, finishedAt := Some(now), updatedAt := now)
  }

  lemma {:induction false} SettledIs(job: Job, seen: set<string>, interrupted: set<string>, now: int)
    ensures var s := Settled(job, seen, interrupted, now);
            && s.id == job.id && s.key == job.key && s.kind == job.kind && s.createdAt == job.createdAt
            && !s.status.Running? && (s.status.Queued? <==> Judge(job, seen, interrupted).Resume?)
            && (!Judge(job, seen, interrupted).Mark? ==> s == job)
            && (Judge(job, seen, interrupted).Mark? ==> s == EndedAtStart(job, now))
  {
  }

  /** One verdict touches the judged job and nothing else. */
  lemma {:induction false} CarryAt(f: Files, job: Job, seen: set<string>, interrupted: set<string>, now: int,
          w: Write, i: nat)
    requires DistinctIds(f.mem) && i < |f.mem|
    ensures var g := Carry(f, job, Judge(job, seen, interrupted), now, w);
            && |g.mem| == |f.mem| && DistinctIds(g.mem)
            && (f.mem[i].id != job.id || !w.Done? ==> g.mem[i] == f.mem[i])
            && (f.mem[i] == job && w.Done? ==> g.mem[i] == Settled(job, seen, interrupted, now))
  {
    var v := Judge(job, seen, interrupted);
    if v.Mark? {
      var p := Find(f.mem, job.id);
      if p < |f.mem| {
        EditKeepsIdentity(v.edit, f.mem[p], now);
      }
    }
    hide EditJob;
  }

  /** Wherever a job stands in the order, start-up leaves it as its own verdict says,
      and untouched if that verdict could not be written. */
  lemma {:induction false} RecoverAt(f: Files, order: seq<Job>, n: nat, interrupted: set<string>, now: int,
          fate: string -> Write, i: nat, m: nat)
    requires DistinctIds(f.mem) && DistinctIds(order) && n <= |order|
    requires i < |f.mem| && m < |order| && f.mem[i].id == order[m].id && (n <= m ==> f.mem[i] == order[m])
    ensures var g := Recover(f, order[n..], SeenBefore(order, n, interrupted), interrupted, now, fate);
            && |g.mem| == |f.mem|
            && g.mem[i] == if n <= m && fate(order[m].id).Done?
                           then Settled(order[m], SeenBefore(order, m, interrupted), interrupted, now) else f.mem[i]
    decreases |order| - n
  {
    hide Judge; hide Carry; hide Settled; hide EditJob; hide SeenBefore; hide SeenAfter; hide Recover; hide Resumed;
    var seen := SeenBefore(order, n, interrupted);
    OneMore(f, order, n, seen, interrupted, now, fate);
    if n < |order| {
      SeenGrows(order, n, interrupted);
      var w := fate(order[n].id);
      var g := Carry(f, order[n], Judge(order[n], seen, interrupted), now, w);
      CarryAt(f, order[n], seen, interrupted, now, w, i);
      SettledIs(order[n], seen, interrupted, now);
      assert m != n ==> order[m].id != order[n].id;
      RecoverAt(g, order, n + 1, interrupted, now, fate, i, m);
    }
  }

  /** The place of a listed job in the recovery order. */
  lemma {:induction false} PlaceOf(jobs: seq<Job>, i: nat) returns (m: nat)
    requires DistinctIds(jobs) && i < |jobs|
    ensures m < |RecoveryOrder(jobs)| && RecoveryOrder(jobs)[m] == jobs[i]
  {
    OrderKeeps(jobs);
    assert jobs[i] in RecoveryOrder(jobs);
    m :| 0 <= m < |RecoveryOrder(jobs)| && RecoveryOrder(jobs)[m] == jobs[i];
  }

  lemma {:induction false} SameInterrupted(a: seq<Job>, b: seq<Job>)
    requires forall j :: j in a <==> j in b
    ensures InterruptedKeys(a) == InterruptedKeys(b)
  {
    forall x ensures x in InterruptedKeys(a) <==> x in InterruptedKeys(b) {
      if x in InterruptedKeys(a) {
        var i :| 0 <= i < |a| && a[i].status.Running? && !a[i].kind.PushDispatch? && a[i].key.Some?
          && a[i].key.value == x;
        assert a[i] in b;
      }
      if x in InterruptedKeys(b) {
        var i :| 0 <= i < |b| && b[i].status.Running? && !b[i].kind.PushDispatch? && b[i].key.Some?
          && b[i].key.value == x;
        assert b[i] in a;
      }
    }
  }

  // --------------------------------------------------------- the main result

  /** A queued job that recovery must keep: nothing interrupted shares its key, and no
      queued job of its key comes earlier in the order. */
  ghost predicate Survives(jobs: seq<Job>, job: Job) {
    && Resumable(job)
    && (job.key.Some? ==>
          && job.key.value !in InterruptedKeys(jobs)
          && forall m :: 0 <= m < |RecoveryOrder(jobs)| && RecoveryOrder(jobs)[m] == job ==>
               job.key.value !in SeenBefore(RecoveryOrder(jobs), m, InterruptedKeys(jobs)))
  }

  lemma {:induction false} SurvivorIsResumed(jobs: seq<Job>, m: nat)
    requires DistinctIds(jobs) && m < |RecoveryOrder(jobs)|
    ensures var order, keys := RecoveryOrder(jobs), InterruptedKeys(jobs);
            Survives(jobs, order[m]) <==> Judge(order[m], SeenBefore(order, m, keys), keys).Resume?
  {
    OrderKeeps(jobs);
    hide RecoveryOrder; hide SeenBefore; hide InterruptedKeys;
    var order := RecoveryOrder(jobs);
    assert forall k :: 0 <= k < |order| && order[k] == order[m] ==> k == m;
  }

  /** Start-up decides each job on its own: queued again untouched if it survives,
      otherwise ended; and a job whose write failed stays as it was. */
  lemma {:induction false} RecoveryMeans(f: Files, now: int, fate: string -> Write, i: nat)
    requires DistinctIds(f.mem) && i < |f.mem|
    ensures var job, after := f.mem[i], RecoverAll(f, now, fate).mem;
            && |after| == |f.mem|
            && after[i].id == job.id && after[i].key == job.key && after[i].kind == job.kind
            && after[i].createdAt == job.createdAt
            && (fate(job.id).Done? ==> !after[i].status.Running? && (after[i].status.Queued? <==> Survives(f.mem, job)))
            && after[i]
               == if !fate(job.id).Done? || Survives(f.mem, job) || IsTerminal(job) then job else EndedAtStart(job, now)
  {
    var order, keys := RecoveryOrder(f.mem), InterruptedKeys(f.mem);
    OrderKeeps(f.mem);
    SameInterrupted(f.mem, order);
    var m := PlaceOf(f.mem, i);
    assert order[0..] == order;
    assert SeenBefore(order, 0, keys) == {};
    RecoverAt(f, order, 0, keys, now, fate, i, m);
    SurvivorIsResumed(f.mem, m);
    SettledIs(order[m], SeenBefore(order, m, keys), keys, now);
    var verdict := Judge(order[m], SeenBefore(order, m, keys), keys);
    assert IsTerminal(order[m]) || verdict.Resume? <==> !verdict.Mark?;
    hide Recover; hide Settled; hide Judge; hide SeenBefore; hide InterruptedKeys; hide RecoveryOrder; hide Survives;
  }

  /** A list on which recovery has nothing to do. */
  ghost predicate Quiet(jobs: seq<Job>) {
    && (forall j :: j in jobs ==> !j.status.Running? && (j.status.Queued? ==> !j.kind.PushDispatch?))
    && (forall i, k :: 0 <= i < k < |jobs| && jobs[i].status.Queued? && jobs[k].status.Queued? && jobs[i].key.Some?
          ==> jobs[i].key != jobs[k].key)
  }

  lemma {:induction false} EarlierIsSeen(order: seq<Job>, n: nat, m: nat, keys: set<string>)
    requires n < |order| && m < |order| && Resumable(order[n]) && order[n].key.Some? && order[n].key.value !in keys
    ensures n < m ==> order[n].key.value in SeenBefore(order, m, keys)
  {
  }

  /** Of two queued jobs with one key at most one survives: the older. */
  lemma {:induction false} OneSurvivor(jobs: seq<Job>, x: Job, y: Job)
    requires DistinctIds(jobs) && x in jobs && y in jobs && x.key.Some? && x.key == y.key && Resumable(x)
            && Resumable(y)
    requires Survives(jobs, x)
    ensures x.createdAt <= y.createdAt && (Survives(jobs, y) ==> x == y)
  {
    OrderKeeps(jobs);
    var order, keys := RecoveryOrder(jobs), InterruptedKeys(jobs);
    var m :| 0 <= m < |order| && order[m] == x;
    var n :| 0 <= n < |order| && order[n] == y;
    hide RecoveryOrder; hide InterruptedKeys;
    EarlierIsSeen(order, m, n, keys);
    EarlierIsSeen(order, n, m, keys);
  }

  /** Among queued jobs of a key that nothing interrupted holds, one survives. */
  lemma {:induction false} SomeSurvivor(jobs: seq<Job>, m: nat) returns (x: Job)
    requires DistinctIds(jobs) && m < |RecoveryOrder(jobs)|
    requires Resumable(RecoveryOrder(jobs)[m]) && RecoveryOrder(jobs)[m].key.Some?
    requires RecoveryOrder(jobs)[m].key.value !in InterruptedKeys(jobs)
    ensures x in jobs && Survives(jobs, x) && x.key == RecoveryOrder(jobs)[m].key
    decreases m
  {
    OrderKeeps(jobs);
    var order, keys := RecoveryOrder(jobs), InterruptedKeys(jobs);
    hide RecoveryOrder; hide InterruptedKeys; hide DistinctIds;
    x := order[m];
    assert x in order;
    if !Survives(jobs, x) {
      var p :| 0 <= p < |order| && order[p] == x && x.key.value in SeenBefore(order, p, keys);
      SamePlace(order, p, m);
      var k :| 0 <= k < m && Resumable(order[k]) && order[k].key.Some? && order[k].key.value == x.key.value;
      x := SomeSurvivor(jobs, k);
    }
  }

  lemma {:induction false} SamePlace(order: seq<Job>, p: nat, m: nat)
    requires DistinctIds(order) && p < |order| && m < |order| && order[p] == order[m]
    ensures p == m
  {
  }

  ghost predicate AllWritten(fate: string -> Write) {
    forall id :: fate(id).Done?
  }

  lemma {:induction false} RecoverLength(f: Files, todo: seq<Job>, seen: set<string>, keys: set<string>, now: int,
          fate: string -> Write)
    ensures |Recover(f, todo, seen, keys, now, fate).mem| == |f.mem|
    decreases |todo|
  {
    hide EditJob; hide Judge; hide SeenAfter;
    if todo != [] {
      var g := Carry(f, todo[0], Judge(todo[0], seen, keys), now, fate(todo[0].id));
      RecoverLength(g, todo[1..], SeenAfter(todo[0], seen, keys), keys, now, fate);
    }
  }

  /** With its writes working, start-up leaves nothing running, no unfinished push, and
      every idempotency key with at most one queued job. */
  lemma {:induction false} RecoveryLeavesQuiet(f: Files, now: int, fate: string -> Write)
    requires DistinctIds(f.mem) && AllWritten(fate)
    ensures Quiet(RecoverAll(f, now, fate).mem)
  {
    var after := RecoverAll(f, now, fate).mem;
    RecoverLength(f, RecoveryOrder(f.mem), {}, InterruptedKeys(RecoveryOrder(f.mem)), now, fate);
    assert |after| == |f.mem|;
    hide RecoverAll; hide Survives;
    forall i | 0 <= i < |f.mem|
      ensures !after[i].status.Running?
      ensures after[i].status.Queued? ==> after[i] == f.mem[i] && Survives(f.mem, f.mem[i]) && Resumable(f.mem[i])
    {
      RecoveryMeans(f, now, fate, i);
      if after[i].status.Queued? {
        SurvivorIs(f.mem, f.mem[i]);
      }
    }
    forall i, k | 0 <= i < k < |after| && after[i].status.Queued? && after[k].status.Queued? && after[i].key.Some?
      ensures after[i].key != after[k].key
    {
      if after[i].key == after[k].key {
        OneSurvivor(f.mem, f.mem[i], f.mem[k]);
      }
    }
  }

  lemma {:induction false} SurvivorIs(jobs: seq<Job>, job: Job)
    requires Survives(jobs, job)
    ensures Resumable(job) && (job.key.Some? ==> job.key.value !in InterruptedKeys(jobs))
  {
  }

  /** Nothing is left to do exactly on a quiet list: then no verdict marks a job. */
  lemma {:induction false} QuietIff(jobs: seq<Job>)
    requires DistinctIds(jobs)
    ensures Quiet(jobs) <==> forall i :: 0 <= i < |jobs| ==> IsTerminal(jobs[i]) || Survives(jobs, jobs[i])
  {
    if Quiet(jobs) {
      NoneInterrupted(jobs);
      forall i | 0 <= i < |jobs| ensures IsTerminal(jobs[i]) || Survives(jobs, jobs[i]) {
        if !IsTerminal(jobs[i]) {
          QuietSurvives(jobs, i);
        }
      }
    }
    if forall i :: 0 <= i < |jobs| ==> IsTerminal(jobs[i]) || Survives(jobs, jobs[i]) {
      forall i, k | 0 <= i < k < |jobs| && jobs[i].status.Queued? && jobs[k].status.Queued? && jobs[i].key.Some?
        ensures jobs[i].key != jobs[k].key
      {
        if jobs[i].key == jobs[k].key {
          OneSurvivor(jobs, jobs[i], jobs[k]);
        }
      }
    }
  }

  lemma {:induction false} NoneInterrupted(jobs: seq<Job>)
    requires Quiet(jobs)
    ensures InterruptedKeys(jobs) == {}
  {
    forall i | 0 <= i < |jobs| ensures !jobs[i].status.Running? {
      assert jobs[i] in jobs;
    }
  }

  lemma {:induction false} QuietSurvives(jobs: seq<Job>, i: nat)
    requires DistinctIds(jobs) && Quiet(jobs) && i < |jobs| && !IsTerminal(jobs[i])
    ensures Survives(jobs, jobs[i])
  {
    OrderKeeps(jobs);
    NoneInterrupted(jobs);
    var order, keys := RecoveryOrder(jobs), InterruptedKeys(jobs);
    hide RecoveryOrder;
    assert jobs[i] in jobs;
    if jobs[i].key.Some? {
      forall m | 0 <= m < |order| && order[m] == jobs[i]
        ensures jobs[i].key.value !in SeenBefore(order, m, keys)
      {
        forall k | 0 <= k < m && Resumable(order[k]) && order[k].key.Some?
          ensures order[k].key != jobs[i].key
        {
          assert order[k] in jobs;
          var p :| 0 <= p < |jobs| && jobs[p] == order[k];
          assert p != i;
        }
      }
    }
  }

  lemma {:induction false} NothingMarked(f: Files, order: seq<Job>, n: nat, keys: set<string>, now: int,
          fate: string -> Write)
    requires n <= |order|
    requires forall m :: 0 <= m < |order| ==> !Judge(order[m], SeenBefore(order, m, keys), keys).Mark?
    ensures Recover(f, order[n..], SeenBefore(order, n, keys), keys, now, fate) == f
    decreases |order| - n
  {
    hide Judge; hide SeenBefore; hide SeenAfter; hide Recover; hide Resumed;
    OneMore(f, order, n, SeenBefore(order, n, keys), keys, now, fate);
    if n < |order| {
      SeenGrows(order, n, keys);
      NothingMarked(f, order, n + 1, keys, now, fate);
    }
  }

  /** On a quiet list start-up changes nothing, whatever would become of its writes. */
  lemma {:induction false} QuietIsStable(f: Files, now: int, fate: string -> Write)
    requires DistinctIds(f.mem) && Quiet(f.mem)
    ensures RecoverAll(f, now, fate) == f
  {
    var order, keys := RecoveryOrder(f.mem), InterruptedKeys(f.mem);
    OrderKeeps(f.mem);
    SameInterrupted(f.mem, order);
    QuietIff(f.mem);
    hide RecoveryOrder; hide InterruptedKeys; hide Quiet; hide Survives;
    forall m | 0 <= m < |order| ensures !Judge(order[m], SeenBefore(order, m, keys), keys).Mark? {
      SurvivorIsResumed(f.mem, m);
      assert order[m] in f.mem;
    }
    assert order[0..] == order;
    assert SeenBefore(order, 0, keys) == {};
    NothingMarked(f, order, 0, keys, now, fate);
  }

  lemma {:induction false} RecoveryKeepsIds(f: Files, now: int, fate: string -> Write)
    requires DistinctIds(f.mem)
    ensures DistinctIds(RecoverAll(f, now, fate).mem)
  {
    var after := RecoverAll(f, now, fate).mem;
    RecoverLength(f, RecoveryOrder(f.mem), {}, InterruptedKeys(RecoveryOrder(f.mem)), now, fate);
    assert |after| == |f.mem|;
    hide RecoverAll; hide Survives;
    forall i | 0 <= i < |f.mem| ensures after[i].id == f.mem[i].id {
      RecoveryMeans(f, now, fate, i);
    }
  }

  /** Start-up twice is start-up once, on every list and at any later time. */
  lemma {:induction false} RecoveryIsIdempotent(f: Files, now: int, later: int, fate: string -> Write,
          again: string -> Write)
    requires DistinctIds(f.mem) && AllWritten(fate)
    ensures RecoverAll(RecoverAll(f, now, fate), later, again) == RecoverAll(f, now, fate)
  {
    RecoveryLeavesQuiet(f, now, fate);
    RecoveryKeepsIds(f, now, fate);
    QuietIsStable(RecoverAll(f, now, fate), later, again);
  }

  // ------------------------------------------------------- what is signalled

  lemma {:induction false} ResumedAre(order: seq<Job>, n: nat, keys: set<string>, j: Job)
    requires n <= |order|
    ensures j in Resumed(order[n..], SeenBefore(order, n, keys), keys)
            <==> exists m ::
                   n <= m < |order| && order[m] == j && Judge(order[m], SeenBefore(order, m, keys), keys).Resume?
    decreases |order| - n
  {
    hide Judge; hide SeenBefore; hide SeenAfter; hide Recover; hide Resumed;
    OneMore(Files([], [], []), order, n, SeenBefore(order, n, keys), keys, 0, _ => Done);
    if n < |order| {
      SeenGrows(order, n, keys);
      ResumedAre(order, n + 1, keys, j);
    }
  }

  /** The worker is told of exactly the survivors. */
  lemma {:induction false} SignalsAreSurvivors(jobs: seq<Job>, j: Job)
    requires DistinctIds(jobs)
    ensures j in Signals(jobs) <==> j in jobs && Survives(jobs, j)
  {
    var order, keys := RecoveryOrder(jobs), InterruptedKeys(jobs);
    OrderKeeps(jobs);
    SameInterrupted(jobs, order);
    assert order[0..] == order;
    assert SeenBefore(order, 0, keys) == {};
    ResumedAre(order, 0, keys, j);
    hide RecoveryOrder; hide InterruptedKeys; hide SeenBefore; hide Judge; hide Resumed; hide Survives;
    forall m | 0 <= m < |order|
      ensures Survives(jobs, order[m]) <==> Judge(order[m], SeenBefore(order, m, keys), keys).Resume?
    {
      SurvivorIsResumed(jobs, m);
    }
  }

  /** What survives, in the list's own terms: a queued job other than a push whose key,
      if it has one, nothing interrupted holds; and of the queued jobs of each such key
      exactly one, none being older. */
  lemma {:induction false} SurvivorsMean(jobs: seq<Job>, i: nat)
    requires DistinctIds(jobs) && i < |jobs|
    ensures Survives(jobs, jobs[i]) ==>
            Resumable(jobs[i]) && (jobs[i].key.Some? ==> jobs[i].key.value !in InterruptedKeys(jobs))
    ensures Resumable(jobs[i]) && jobs[i].key.None? ==> Survives(jobs, jobs[i])
    ensures Resumable(jobs[i]) && jobs[i].key.Some? && jobs[i].key.value !in InterruptedKeys(jobs) ==>
              exists x :: x in jobs && Survives(jobs, x) && x.key == jobs[i].key && x.createdAt <= jobs[i].createdAt
                          && (jobs[i] != x ==> !Survives(jobs, jobs[i]))
  {
    if Resumable(jobs[i]) && jobs[i].key.Some? && jobs[i].key.value !in InterruptedKeys(jobs) {
      var m := PlaceOf(jobs, i);
      var x := SomeSurvivor(jobs, m);
      SurvivorIs(jobs, x);
      OneSurvivor(jobs, x, jobs[i]);
    }
  }
}
