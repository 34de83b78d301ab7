/** What every change of the job list keeps: the facts about one list on which the
    worker's guarantees over whole runs rest. */
module Ledger {
  import opened Options
  import opened JobModel
  import opened Store

  /** How often each job has been started, over the whole run. */
  type Starts = map<string, nat>

  function Count(starts: Starts, id: string): nat {
    if id in starts then starts[id] else 0
  }

  /** The most starts a kind may ever have. */
  function MaxStarts(kind: JobKind): nat {
    if IsTransfer(kind) then 1 else MAX_AUTO_ATTEMPTS
  }

  /** A listed job's attempt number bounds its starts: a queued job has yet to spend
      its attempt. */
  ghost predicate JobOk(j: Job, starts: Starts, kinds: map<string, JobKind>) {
    && j.id in kinds && kinds[j.id] == j.kind
    && 1 <= j.attempt <= MaxStarts(j.kind)
    && Count(starts, j.id) + (if j.status.Queued? then 1 else 0) <= j.attempt
    && (j.key.Some? ==> j.key.value == KeyOf(j.kind, j.payload))
  }

  /** No two live jobs share a key, if one of them is a transfer. */
  ghost predicate TransferKeysDistinct(jobs: seq<Job>) {
    forall x, y :: x in jobs && y in jobs && IsLive(x) && IsLive(y) && IsTransfer(x.kind) && x.key.Some?
      && x.key == y.key
      ==> x.id == y.id
  }

  ghost predicate ListOk(jobs: seq<Job>, starts: Starts, kinds: map<string, JobKind>) {
    && DistinctIds(jobs)
    && (forall j :: j in jobs ==> JobOk(j, starts, kinds))
    && TransferKeysDistinct(jobs)
  }

  ghost predicate StartsOk(starts: Starts, kinds: map<string, JobKind>) {
    forall id :: id in starts ==> id in kinds && starts[id] <= MaxStarts(kinds[id])
  }

  // -------------------------------------------------------- fewer jobs

  /** Some jobs of `a` are gone, the others are as they were. */
  ghost predicate Fewer(b: seq<Job>, a: seq<Job>) {
    DistinctIds(b) && forall j :: j in b ==> j in a
  }

  lemma {:induction false} FewerKeepsList(b: seq<Job>, a: seq<Job>, starts: Starts, kinds: map<string, JobKind>)
    requires Fewer(b, a) && ListOk(a, starts, kinds)
    ensures ListOk(b, starts, kinds)
  {
    hide JobOk;
  }

  lemma {:induction false} DropFewer(jobs: seq<Job>, n: nat)
    requires DistinctIds(jobs)
    ensures Fewer(DropTerminal(jobs, n), jobs)
  {
    if jobs != [] && n > 0 {
      var rest := DropTerminal(jobs[1..], if IsTerminal(jobs[0]) then n - 1 else n);
      DropFewer(jobs[1..], if IsTerminal(jobs[0]) then n - 1 else n);
      assert forall j :: j in rest ==> j in jobs[1..] && j.id != jobs[0].id;
    }
  }

  lemma {:induction false} TruncatedFewer(jobs: seq<Job>)
    requires DistinctIds(jobs)
    ensures Fewer(Truncated(jobs), jobs)
  {
    if |jobs| > MAX_JOBS {
      DropFewer(jobs, |jobs| - MAX_JOBS);
    }
  }

  lemma {:induction false} LiveFewer(jobs: seq<Job>)
    requires DistinctIds(jobs)
    ensures Fewer(Live(jobs), jobs)
  {
    if jobs != [] {
      LiveFewer(jobs[1..]);
      assert forall j :: j in Live(jobs[1..]) ==> j in jobs[1..] && j.id != jobs[0].id;
    }
  }

  // ------------------------------------------------------------ one edit

  /** A retry must be the next attempt, and only where retries are supported. */
  ghost predicate RetryOk(jobs: seq<Job>, id: string, e: Edit) {
    e.Requeue? ==> forall j :: j in jobs && j.id == id ==>
      !IsTransfer(j.kind) && e.attempt == j.attempt + 1 && e.attempt <= MAX_AUTO_ATTEMPTS
  }

  lemma {:induction false} EditedJobOk(e: Edit, j: Job, now: int, starts: Starts, kinds: map<string, JobKind>)
    requires JobOk(j, starts, kinds) && EditJob(e, j, now).Some?
    requires e.Requeue? ==> !IsTransfer(j.kind) && e.attempt == j.attempt + 1 && e.attempt <= MAX_AUTO_ATTEMPTS
    ensures JobOk(EditJob(e, j, now).value.(updatedAt := now), starts, kinds)
    ensures e.Claim? ==>
            JobOk(EditJob(e, j, now).value.(updatedAt := now), starts[j.id := Count(starts, j.id) + 1], kinds)
  {
  }

  /** The list after one job has been replaced by its edited self. */
  lemma {:induction false} ReplaceKeepsList(jobs: seq<Job>, i: nat, k: Job, starts: Starts, kinds: map<string, JobKind>)
    requires ListOk(jobs, starts, kinds) && i < |jobs| && JobOk(k, starts, kinds)
    requires k.id == jobs[i].id && k.kind == jobs[i].kind && k.key == jobs[i].key
    requires IsLive(k) ==> IsLive(jobs[i]) || !IsTransfer(k.kind)
    requires k.payload == jobs[i].payload
    ensures ListOk(jobs[i := k], starts, kinds)
  {
    var after := jobs[i := k];
    assert forall j :: j in after ==> j == k || j in jobs;
    forall x, y | x in after && y in after && IsLive(x) && IsLive(y) && IsTransfer(x.kind) && x.key.Some?
      && x.key == y.key
      ensures x.id == y.id
    {
      SameKeySameKind(x, y, starts, kinds);
      assert jobs[i] in jobs;
    }
  }

  lemma {:induction false} SameKeySameKind(x: Job, y: Job, starts: Starts, kinds: map<string, JobKind>)
    requires JobOk(x, starts, kinds) && JobOk(y, starts, kinds) && x.key.Some? && x.key == y.key
    ensures x.kind == y.kind
  {
    KeyIsInjective(x.kind, x.payload, y.kind, y.payload);
  }

  lemma {:induction false} EditKeepsList(jobs: seq<Job>, id: string, e: Edit, now: int, starts: Starts,
          kinds: map<string, JobKind>)
    requires ListOk(jobs, starts, kinds) && RetryOk(jobs, id, e)
    ensures EditList(jobs, id, e, now).Some? ==> ListOk(EditList(jobs, id, e, now).value, starts, kinds)
  {
    var i := Find(jobs, id);
    if i < |jobs| && EditJob(e, jobs[i], now).Some? {
      assert jobs[i] in jobs;
      EditKeepsIdentity(e, jobs[i], now);
      EditedJobOk(e, jobs[i], now, starts, kinds);
      hide EditJob; hide JobOk; hide ListOk;
      ReplaceKeepsList(jobs, i, EditJob(e, jobs[i], now).value.(updatedAt := now), starts, kinds);
    }
  }

  /** A claim that is saved counts as a start, and the list still bounds the starts. */
  lemma {:induction false} ClaimKeepsList(jobs: seq<Job>, id: string, p: JobPriority, now: int, starts: Starts,
          kinds: map<string, JobKind>)
    requires ListOk(jobs, starts, kinds) && StartsOk(starts, kinds) && EditList(jobs, id, Claim(p), now).Some?
    ensures var more := starts[id := Count(starts, id) + 1];
            ListOk(EditList(jobs, id, Claim(p), now).value, more, kinds) && StartsOk(more, kinds)
  {
    var i := Find(jobs, id);
    var more := starts[id := Count(starts, id) + 1];
    var k := EditJob(Claim(p), jobs[i], now).value.(updatedAt := now);
    assert jobs[i] in jobs;
    EditedJobOk(Claim(p), jobs[i], now, starts, kinds);
    EditKeepsList(jobs, id, Claim(p), now, starts, kinds);
    hide EditJob; hide TransferKeysDistinct;
    var after := jobs[i := k];
    forall j | j in after ensures JobOk(j, more, kinds) {
      if j != k {
        var m :| 0 <= m < |jobs| && m != i && jobs[m] == j;
        assert j.id != id;
        assert j in jobs;
      }
    }
  }

  // ------------------------------------------------------- one more job

  lemma {:induction false} MoreKinds(jobs: seq<Job>, starts: Starts, kinds: map<string, JobKind>, id: string,
          kind: JobKind)
    requires ListOk(jobs, starts, kinds) && id !in kinds
    ensures ListOk(jobs, starts, kinds[id := kind])
  {
  }

  /** A newly submitted job. */
  ghost predicate IsNew(job: Job) {
    job.status.Queued? && job.attempt == 1 && job.key == Some(KeyOf(job.kind, job.payload))
  }

  lemma {:induction false} AddKeepsList(jobs: seq<Job>, job: Job, starts: Starts, kinds: map<string, JobKind>)
    requires ListOk(jobs, starts, kinds) && StartsOk(starts, kinds) && job.id !in kinds && IsNew(job)
            && Existing(jobs, job).None?
    ensures ListOk(Truncated(jobs + [job]), starts, kinds[job.id := job.kind])
  {
    var more := kinds[job.id := job.kind];
    MoreKinds(jobs, starts, kinds, job.id, job.kind);
    var all := jobs + [job];
    assert forall j :: j in all <==> j in jobs || j == job;
    assert JobOk(job, starts, more);
    forall j | j in jobs ensures j.id != job.id && !SameLiveKey(j, job) {
      assert JobOk(j, starts, kinds);
    }
    assert DistinctIds(all);
    hide JobOk; hide DistinctIds;
    assert ListOk(all, starts, more);
    TruncatedFewer(all);
    FewerKeepsList(Truncated(all), all, starts, more);
  }

  // --------------------------------------------------- what bystanders see

  /** `k` was listed before under the same id, kind and attempt, and if it is queued
      now it was queued then, and due at the same time. */
  ghost predicate Was(k: Job, jobs: seq<Job>) {
    exists j :: j in jobs && j.id == k.id && j.kind == k.kind && j.attempt == k.attempt
                && (k.status.Queued? ==> j.status.Queued? && j.nextAttemptAt == k.nextAttemptAt)
  }

  /** The new list wakes no known job up and retries none. */
  ghost predicate Tame(after: seq<Job>, before: seq<Job>, known: set<string>) {
    forall k :: k in after && k.id in known ==> Was(k, before)
  }

  lemma {:induction false} FewerIsTame(b: seq<Job>, a: seq<Job>, known: set<string>)
    requires Fewer(b, a)
    ensures Tame(b, a, known)
  {
  }

  lemma {:induction false} AddIsTame(jobs: seq<Job>, job: Job, known: set<string>)
    requires DistinctIds(jobs + [job]) && job.id !in known
    ensures Tame(Truncated(jobs + [job]), jobs, known)
  {
    TruncatedFewer(jobs + [job]);
    hide Truncated;
    assert forall k :: k in jobs + [job] && k != job ==> k in jobs;
  }

  lemma {:induction false} EditIsTame(jobs: seq<Job>, id: string, e: Edit, now: int, known: set<string>)
    requires !e.Requeue?
    ensures EditList(jobs, id, e, now).Some? ==> Tame(EditList(jobs, id, e, now).value, jobs, known)
  {
    var i := Find(jobs, id);
    if i < |jobs| && EditJob(e, jobs[i], now).Some? {
      assert jobs[i] in jobs;
      var k := EditJob(e, jobs[i], now).value.(updatedAt := now);
      assert k.status.Queued? ==> jobs[i].status.Queued? && k.nextAttemptAt == jobs[i].nextAttemptAt;
      EditKeepsIdentity(e, jobs[i], now);
      hide EditJob;
      assert forall j :: j in jobs[i := k] ==> j == k || j in jobs;
    }
  }

  lemma {:induction false} OthersUntouched(f: Files, id: string, e: Edit, now: int, w: Write, j: Job)
    requires j in Updated(f, id, e, now, w).mem && j.id != id
    ensures j in f.mem
  {
    var i := Find(f.mem, id);
    if i < |f.mem| && EditJob(e, f.mem[i], now).Some? {
      EditKeepsIdentity(e, f.mem[i], now);
      hide EditJob;
    }
  }
}
