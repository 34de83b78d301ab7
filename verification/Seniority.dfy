/** Start-up in the words of the list itself: which of several jobs with one key is the
    senior, what becomes of every job, and in which order the worker is told. */
module Seniority {
  import opened Options
  import opened JobModel
  import opened Store
  import opened Recovery
  import opened Order

  // -------------------------------------------------------- the order of judging

  lemma {:induction false} InsertedLine(job: Job, sorted: seq<Job>, x: Job, y: Job)
    requires InLine(sorted, x, y)
    ensures InLine(InsertByCreation(job, sorted), x, y)
    decreases |sorted|
  {
    if sorted == [] || job.createdAt <= sorted[0].createdAt {
      LineBehind(sorted, [job], x, y);
    } else {
      var rest := InsertByCreation(job, sorted[1..]);
      LineSplits(sorted, x, y);
      InsertKeeps(job, sorted[1..]);
      assert InsertByCreation(job, sorted) == [sorted[0]] + rest;
      hide InLine; hide InsertByCreation;
      if InLine(sorted[1..], x, y) {
        InsertedLine(job, sorted[1..], x, y);
        LineBehind(rest, [sorted[0]], x, y);
      } else {
        assert y in multiset(rest);
        LineStarts(rest, x, y);
      }
    }
  }

  lemma {:induction false} InsertedAmong(job: Job, sorted: seq<Job>, y: Job)
    requires Sorted(sorted) && y in sorted
    ensures if job.createdAt <= y.createdAt then InLine(InsertByCreation(job, sorted), job, y)
            else InLine(InsertByCreation(job, sorted), y, job)
    decreases |sorted|
  {
    var k :| 0 <= k < |sorted| && sorted[k] == y;
    if job.createdAt <= sorted[0].createdAt {
      LineStarts(sorted, job, y);
    } else {
      var rest := InsertByCreation(job, sorted[1..]);
      InsertKeeps(job, sorted[1..]);
      assert InsertByCreation(job, sorted) == [sorted[0]] + rest;
      if y == sorted[0] {
        assert job in multiset(rest);
        hide InLine; hide InsertByCreation;
        LineStarts(rest, y, job);
      } else {
        assert sorted[1..][k - 1] == y;
        InsertedAmong(job, sorted[1..], y);
        hide InLine; hide InsertByCreation;
        if job.createdAt <= y.createdAt {
          LineBehind(rest, [sorted[0]], job, y);
        } else {
          LineBehind(rest, [sorted[0]], y, job);
        }
      }
    }
  }

  lemma {:induction false} SortedLine(jobs: seq<Job>, p: nat, q: nat)
    requires p < q < |jobs|
    ensures if jobs[p].createdAt <= jobs[q].createdAt then InLine(SortByCreation(jobs), jobs[p], jobs[q])
            else InLine(SortByCreation(jobs), jobs[q], jobs[p])
    decreases |jobs|
  {
    var rest := SortByCreation(jobs[1..]);
    SortSorts(jobs[1..]);
    assert SortByCreation(jobs) == InsertByCreation(jobs[0], rest);
    assert jobs[1..][q - 1] == jobs[q];
    hide InLine; hide InsertByCreation; hide SortByCreation;
    if p == 0 {
      assert jobs[q] in multiset(jobs[1..]);
      assert jobs[q] in rest;
      InsertedAmong(jobs[0], rest, jobs[q]);
    } else {
      assert jobs[1..][p - 1] == jobs[p];
      SortedLine(jobs[1..], p - 1, q - 1);
      if jobs[p].createdAt <= jobs[q].createdAt {
        InsertedLine(jobs[0], rest, jobs[p], jobs[q]);
      } else {
        InsertedLine(jobs[0], rest, jobs[q], jobs[p]);
      }
    }
  }

  lemma {:induction false} ReversedAt(jobs: seq<Job>, i: nat)
    requires i < |jobs|
    ensures |NewestFirst(jobs)| == |jobs| && NewestFirst(jobs)[|jobs| - 1 - i] == jobs[i]
    decreases |jobs|
  {
    if i > 0 {
      ReversedAt(jobs[1..], i - 1);
    } else if |jobs| > 1 {
      ReversedAt(jobs[1..], 0);
    }
  }

  /** Judged first: the job created earlier; of two created at once, the one listed later. */
  predicate IsSenior(jobs: seq<Job>, k: nat, i: nat)
    requires k < |jobs| && i < |jobs|
  {
    jobs[k].createdAt < jobs[i].createdAt || (jobs[k].createdAt == jobs[i].createdAt && k > i)
  }

  lemma {:induction false} SeniorsComeFirst(jobs: seq<Job>, k: nat, i: nat)
    requires k < |jobs| && i < |jobs| && k != i
    ensures if IsSenior(jobs, k, i) then InLine(RecoveryOrder(jobs), jobs[k], jobs[i])
            else InLine(RecoveryOrder(jobs), jobs[i], jobs[k])
  {
    ReversedAt(jobs, k);
    ReversedAt(jobs, i);
    var p, q := |jobs| - 1 - k, |jobs| - 1 - i;
    SortedLine(NewestFirst(jobs), if p < q then p else q, if p < q then q else p);
    hide InLine; hide NewestFirst; hide SortByCreation;
  }

  lemma {:induction false} LineIsPlace(order: seq<Job>, n: nat, m: nat)
    requires DistinctIds(order) && n < |order| && m < |order| && InLine(order, order[n], order[m])
    ensures n < m
  {
  }

  // --------------------------------------------------------------- what survives

  /** Work that was interrupted holds this job's key. */
  ghost predicate IsInterrupted(jobs: seq<Job>, job: Job) {
    exists j :: j in jobs && j.status.Running? && !j.kind.PushDispatch? && j.key == job.key
  }

  /** A queued job of the same key is judged before this one. */
  ghost predicate HasSenior(jobs: seq<Job>, i: nat)
    requires i < |jobs|
  {
    exists k :: 0 <= k < |jobs| && k != i && jobs[k].status.Queued? && !jobs[k].kind.PushDispatch?
                && jobs[k].key == jobs[i].key && IsSenior(jobs, k, i)
  }

  lemma {:induction false} InterruptedIff(jobs: seq<Job>, job: Job)
    requires job.key.Some?
    ensures job.key.value in InterruptedKeys(jobs) <==> IsInterrupted(jobs, job)
  {
    if IsInterrupted(jobs, job) {
      var j :| j in jobs && j.status.Running? && !j.kind.PushDispatch? && j.key == job.key;
      var i :| 0 <= i < |jobs| && jobs[i] == j;
    }
  }

  lemma {:induction false} SeenIff(jobs: seq<Job>, i: nat, m: nat)
    requires DistinctIds(jobs) && i < |jobs| && jobs[i].key.Some? && jobs[i].key.value !in InterruptedKeys(jobs)
    requires m < |RecoveryOrder(jobs)| && RecoveryOrder(jobs)[m] == jobs[i]
    ensures jobs[i].key.value in SeenBefore(RecoveryOrder(jobs), m, InterruptedKeys(jobs)) <==> HasSenior(jobs, i)
  {
    var order, keys := RecoveryOrder(jobs), InterruptedKeys(jobs);
    OrderKeeps(jobs);
    hide RecoveryOrder; hide InterruptedKeys; hide InLine; hide IsSenior;
    if HasSenior(jobs, i) {
      var k :| 0 <= k < |jobs| && k != i && jobs[k].status.Queued? && !jobs[k].kind.PushDispatch?
                && jobs[k].key == jobs[i].key && IsSenior(jobs, k, i);
      SeniorsComeFirst(jobs, k, i);
      var n := PlaceOf(jobs, k);
      LineIsPlace(order, n, m);
      EarlierIsSeen(order, n, m, keys);
    }
    if jobs[i].key.value in SeenBefore(order, m, keys) {
      var n :| 0 <= n < m && Resumable(order[n]) && order[n].key.Some? && order[n].key.value == jobs[i].key.value;
      assert order[n] in jobs;
      var k :| 0 <= k < |jobs| && jobs[k] == order[n];
      assert k != i by {
        assert order[n].id != order[m].id;
      }
      SeniorsComeFirst(jobs, k, i);
      if !IsSenior(jobs, k, i) {
        LineIsPlace(order, m, n);
      }
    }
  }

  /** Which queued job survives: not a push, and, if it has a key, nothing interrupted holds
      it and no queued job of the key is its senior. */
  lemma {:induction false} SurvivesIff(jobs: seq<Job>, i: nat)
    requires DistinctIds(jobs) && i < |jobs|
    ensures Survives(jobs, jobs[i]) <==>
            && jobs[i].status.Queued? && !jobs[i].kind.PushDispatch?
            && (jobs[i].key.Some? ==> !IsInterrupted(jobs, jobs[i]) && !HasSenior(jobs, i))
  {
    var m := PlaceOf(jobs, i);
    OrderKeeps(jobs);
    SurvivorIsResumed(jobs, m);
    var order, keys := RecoveryOrder(jobs), InterruptedKeys(jobs);
    if jobs[i].key.Some? {
      InterruptedIff(jobs, jobs[i]);
      if jobs[i].key.value !in keys {
        SeenIff(jobs, i, m);
      }
    }
    hide RecoveryOrder; hide InterruptedKeys; hide SeenBefore; hide Survives; hide IsInterrupted; hide HasSenior;
  }

  /** What start-up makes of every listed job whose write, if it needs one, is saved: running
      pushes, queued pushes, and queued jobs whose key is interrupted or has a senior end
      canceled; other running jobs end failed; all others stay as they are. */
  lemma {:induction false} StartUpMeans(f: Files, now: int, fate: string -> Write, i: nat)
    requires DistinctIds(f.mem) && i < |f.mem|
    ensures var job, after := f.mem[i], RecoverAll(f, now, fate).mem;
            var stays := || job.status.Succeeded? || job.status.Failed? || job.status.Canceled?
                         || (job.status.Queued? && !job.kind.PushDispatch?
                             && (job.key.Some? ==> !IsInterrupted(f.mem, job) && !HasSenior(f.mem, i)));
            var ending := if job.status.Running? && !job.kind.PushDispatch? then JobStatus.Failed
              else JobStatus.Canceled;
            && |after| == |f.mem|
            && after[i] == if stays || !fate(job.id).Done? then job
                           else job.(status := ending, progress := 100, finishedAt := Some(now), updatedAt := now)
  {
    RecoveryMeans(f, now, fate, i);
    SurvivesIff(f.mem, i);
    hide RecoverAll; hide Survives; hide IsInterrupted; hide HasSenior;
  }

  // ------------------------------------------------------------- the signals

  lemma {:induction false} ResumedInOrder(todo: seq<Job>, seen: set<string>, interrupted: set<string>)
    requires Sorted(todo)
    ensures Sorted(Resumed(todo, seen, interrupted))
    ensures forall j :: j in Resumed(todo, seen, interrupted) ==> j in todo
    decreases |todo|
  {
    hide Judge; hide SeenAfter;
    if todo != [] {
      var rest := Resumed(todo[1..], SeenAfter(todo[0], seen, interrupted), interrupted);
      ResumedInOrder(todo[1..], SeenAfter(todo[0], seen, interrupted), interrupted);
      forall i | 0 <= i < |rest| ensures todo[0].createdAt <= rest[i].createdAt {
        assert rest[i] in todo[1..];
        var k :| 0 <= k < |todo| - 1 && todo[1..][k] == rest[i];
        assert todo[k + 1] == rest[i];
      }
    }
  }

  /** The worker is told of the survivors oldest first, as far as there is room. */
  lemma {:induction false} SignalsAreInOrder(jobs: seq<Job>, free: nat)
    requires DistinctIds(jobs)
    ensures Sorted(Signals(jobs))
    ensures var sent := FirstIds(Signals(jobs), free);
            && |sent| == (if |Signals(jobs)| < free then |Signals(jobs)| else free)
            && forall i :: 0 <= i < |sent| ==> sent[i] == Signals(jobs)[i].id
  {
    OrderKeeps(jobs);
    hide RecoveryOrder; hide InterruptedKeys; hide Resumed;
    ResumedInOrder(RecoveryOrder(jobs), {}, InterruptedKeys(RecoveryOrder(jobs)));
  }
}
