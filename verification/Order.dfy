/** First in, first out: what the scheduler promises to jobs that take turns in one group. */
module Order {
  import opened Options
  import opened JobModel
  import opened Scheduler
  import opened Fairness

  ghost predicate InLine(jobs: seq<Job>, first: Job, second: Job) {
    exists i, j :: 0 <= i < j < |jobs| && jobs[i] == first && jobs[j] == second
  }

  /** Both wait in one group, the first ahead of the second. */
  ghost predicate Ahead(q: seq<Group>, first: Job, second: Job) {
    exists g :: 0 <= g < |q| && InLine(q[g].jobs, first, second)
  }

  // ---------------------------------------------------------- one operation

  lemma {:induction false} PushAhead(q: seq<Group>, job: Job, first: Job, second: Job)
    requires Ahead(q, first, second)
    ensures Ahead(PushJob(q, job), first, second)
  {
    var g :| 0 <= g < |q| && InLine(q[g].jobs, first, second);
    var i, j :| 0 <= i < j < |q[g].jobs| && q[g].jobs[i] == first && q[g].jobs[j] == second;
    var r := PushJob(q, job);
    hide FindGroup; hide FairnessKey;
    assert r[g].jobs[i] == first && r[g].jobs[j] == second;
  }

  lemma {:induction false} LineStarts(rest: seq<Job>, first: Job, second: Job)
    requires second in rest
    ensures InLine([first] + rest, first, second)
  {
    var k :| 0 <= k < |rest| && rest[k] == second;
    assert ([first] + rest)[0] == first && ([first] + rest)[k + 1] == second;
  }

  lemma {:induction false} LineBehind(jobs: seq<Job>, front: seq<Job>, first: Job, second: Job)
    requires InLine(jobs, first, second)
    ensures InLine(front + jobs, first, second)
  {
    var i, j :| 0 <= i < j < |jobs| && jobs[i] == first && jobs[j] == second;
    assert (front + jobs)[|front| + i] == first && (front + jobs)[|front| + j] == second;
  }

  lemma {:induction false} LineSplits(jobs: seq<Job>, first: Job, second: Job)
    requires InLine(jobs, first, second)
    ensures jobs != [] && ((jobs[0] == first && second in jobs[1..]) || InLine(jobs[1..], first, second))
  {
    var i, j :| 0 <= i < j < |jobs| && jobs[i] == first && jobs[j] == second;
    assert jobs[1..][j - 1] == second;
    assert i > 0 ==> jobs[1..][i - 1] == first;
  }

  lemma {:induction false} WithoutKeepsLine(jobs: seq<Job>, id: string, first: Job, second: Job)
    requires InLine(jobs, first, second) && first.id != id && second.id != id
    ensures InLine(WithoutId(jobs, id), first, second)
    decreases |jobs|
  {
    LineSplits(jobs, first, second);
    var rest, head := WithoutId(jobs[1..], id), if jobs[0].id != id then [jobs[0]] else [];
    assert WithoutId(jobs, id) == head + rest;
    hide InLine; hide WithoutId;
    if InLine(jobs[1..], first, second) {
      WithoutKeepsLine(jobs[1..], id, first, second);
      LineBehind(rest, head, first, second);
    } else {
      LineStarts(rest, first, second);
    }
  }

  lemma {:induction false} DropAhead(t: seq<Group>, first: Job, second: Job)
    requires Ahead(t, first, second)
    ensures Ahead(DropEmpty(t), first, second)
  {
    var g :| 0 <= g < |t| && InLine(t[g].jobs, first, second);
    hide InLine;
    if g == 0 {
      assert t[0].jobs != [] by { NotEmpty(t[0].jobs, first, second); }
      assert DropEmpty(t)[0] == t[0];
    } else {
      assert t[1..][g - 1] == t[g];
      DropAhead(t[1..], first, second);
      var rest := DropEmpty(t[1..]);
      var h :| 0 <= h < |rest| && InLine(rest[h].jobs, first, second);
      var shift := if t[0].jobs != [] then 1 else 0;
      assert DropEmpty(t)[h + shift] == rest[h];
    }
  }

  lemma {:induction false} NotEmpty(jobs: seq<Job>, first: Job, second: Job)
    requires InLine(jobs, first, second)
    ensures jobs != []
  {
    var i, j :| 0 <= i < j < |jobs| && jobs[i] == first && jobs[j] == second;
  }

  lemma {:induction false} StripAt(q: seq<Group>, id: string, g: nat)
    requires g < |q|
    ensures |StripGroups(q, id)| == |q| && StripGroups(q, id)[g] == q[g].(jobs := WithoutId(q[g].jobs, id))
  {
    hide WithoutId;
    if g > 0 {
      StripAt(q[1..], id, g - 1);
    } else if |q| > 1 {
      StripAt(q[1..], id, 0);
    }
  }

  lemma {:induction false} RemoveAhead(q: seq<Group>, id: string, first: Job, second: Job)
    requires Ahead(q, first, second) && id != first.id && id != second.id
    ensures Ahead(RemoveJob(q, id), first, second)
  {
    var g :| 0 <= g < |q| && InLine(q[g].jobs, first, second);
    WithoutKeepsLine(q[g].jobs, id, first, second);
    StripAt(q, id, g);
    hide InLine; hide StripGroups; hide DropEmpty;
    DropAhead(StripGroups(q, id), first, second);
  }

  /** A pushed job goes behind whoever waits in its group. */
  lemma {:induction false} PushedBehind(q: seq<Group>, job: Job, first: Job)
    requires QueueOk(q, job.priority) && first in Held(q) && FairnessKey(first) == FairnessKey(job)
    ensures Ahead(PushJob(q, job), first, job)
  {
    var g, i :| 0 <= g < |q| && 0 <= i < |q[g].jobs| && q[g].jobs[i] == first;
    assert GroupOk(q[g], job.priority);
    var k := FindGroup(q, FairnessKey(job));
    assert k <= g;
    assert k < g ==> Apart(q[k], q[g]);
    var r := PushJob(q, job);
    assert r[g].jobs[i] == first && r[g].jobs[|q[g].jobs|] == job;
    hide FairnessKey;
  }

  lemma {:induction false} HeadIsFirst(g: Group, p: JobPriority, first: Job, second: Job)
    requires GroupOk(g, p) && InLine(g.jobs, first, second)
    ensures first != second && second != g.jobs[0] && second.priority == p && second.id in GroupIds(g)
    ensures g.jobs[0] == first || InLine(g.jobs[1..], first, second)
  {
    var i, j :| 0 <= i < j < |g.jobs| && g.jobs[i] == first && g.jobs[j] == second;
    if i > 0 {
      assert g.jobs[1..][i - 1] == first && g.jobs[1..][j - 1] == second;
    }
    hide FairnessKey;
  }

  /** Two groups have no head in common with each other's jobs. */
  lemma {:induction false} OtherHead(q: seq<Group>, p: JobPriority, n: nat, g: nat, second: Job)
    requires QueueOk(q, p) && n < |q| && g < |q| && n != g && second.id in GroupIds(q[g])
    ensures q[n].jobs != [] && q[n].jobs[0] != second
  {
    assert GroupOk(q[n], p);
    assert q[n].jobs[0].id in GroupIds(q[n]);
    assert Apart(q[if n < g then n else g], q[if n < g then g else n]);
  }

  lemma {:induction false} PopQueueAhead(q: seq<Group>, eligible: Job -> bool, p: JobPriority, first: Job, second: Job)
    requires QueueOk(q, p) && Ahead(q, first, second)
    ensures var (popped, r) := PopJob(q, eligible);
            popped != Some(second) && (popped == Some(first) || Ahead(r, first, second))
  {
    var g :| 0 <= g < |q| && InLine(q[g].jobs, first, second);
    var n := FirstEligible(q, eligible);
    HeadIsFirst(q[g], p, first, second);
    if n < |q| {
      if n != g {
        OtherHead(q, p, n, g, second);
      }
      hide QueueOk; hide GroupOk; hide GroupIds;
      ServedAhead(q, n, g, first, second);
    }
    hide InLine; hide FirstEligible; hide GroupOk; hide GroupIds; hide QueueOk; hide Ahead; hide Scheduler.Rest;
  }

  lemma {:induction false} ServedAhead(q: seq<Group>, n: nat, g: nat, first: Job, second: Job)
    requires n < |q| && g < |q| && q[n].jobs != [] && InLine(q[g].jobs, first, second)
    requires n == g ==> q[g].jobs[0] == first || InLine(q[g].jobs[1..], first, second)
    ensures (n == g && q[n].jobs[0] == first) || Ahead(q[n + 1..] + q[..n] + Scheduler.Rest(q[n]), first, second)
  {
    var r := q[n + 1..] + q[..n] + Scheduler.Rest(q[n]);
    hide InLine;
    if n == g {
      if q[g].jobs[0] != first {
        NotEmpty(q[g].jobs[1..], first, second);
        assert r[|q| - 1] == q[g].(jobs := q[g].jobs[1..]);
      }
    } else {
      assert r[if g > n then g - n - 1 else |q| - n - 1 + g] == q[g];
    }
  }

  lemma {:induction false} PopAhead(s: Sched, eligible: Job -> bool, first: Job, second: Job)
    requires SchedOk(s) && Ahead(s.Queue(second.priority), first, second)
    ensures var popped, t := PopFrom(s, eligible).0, PopFrom(s, eligible).1;
            popped != Some(second) && (popped == Some(first) || Ahead(t.Queue(second.priority), first, second))
  {
    var p := second.priority;
    PopQueueAhead(s.Queue(p), eligible, p, first, second);
    FirstSlotIsFirst(s, eligible);
    var k := FirstSlot(s, eligible);
    if k < 6 {
      SlotKeepsSched(s, eligible, k);
      SlotTurns(s, eligible, k, p);
    }
    hide Ahead; hide PopJob; hide ServeSlot; hide FirstSlot; hide SlotEligible; hide NoneEligible; hide Sched.Queue;
    hide SlotAt;
    hide Sched.Jobs; hide SchedOk;
  }

  lemma {:induction false} PushToAhead(s: Sched, job: Job, first: Job, second: Job)
    requires Ahead(s.Queue(second.priority), first, second) && job.id != first.id && job.id != second.id
    ensures Ahead(PushTo(s, job).Queue(second.priority), first, second)
  {
    var p := second.priority;
    var t := if job.id in s.pending then RemoveId(s, job.id) else s;
    RemoveAhead(s.Queue(p), job.id, first, second);
    assert Ahead(t.Queue(p), first, second);
    PushAhead(t.Queue(p), job, first, second);
    PushedQueue(s, job, p);
    hide Ahead; hide PushJob; hide RemoveJob; hide PushTo;
  }

  // ------------------------------------------------------------ all operations

  /** Neither job is pushed again. */
  ghost predicate LeavesAlone(ops: seq<Op>, first: Job, second: Job) {
    forall i :: 0 <= i < |ops| && ops[i].PushOp? ==> ops[i].job.id != first.id && ops[i].job.id != second.id
  }

  /** The second comes out only after the first. */
  ghost predicate InOrder(log: seq<Job>, first: Job, second: Job) {
    forall j :: 0 <= j < |log| && log[j] == second ==> first in log[..j]
  }

  lemma {:induction false} OneEarlier(popped: Job, rest: seq<Job>, first: Job, second: Job)
    requires popped != second && (popped == first || InOrder(rest, first, second))
    ensures InOrder([popped] + rest, first, second)
  {
    var log := [popped] + rest;
    forall j | 0 <= j < |log| && log[j] == second ensures first in log[..j] {
      assert log[..j][0] == popped;
      assert log[..j][1..] == rest[..j - 1];
      if popped != first {
        assert first in log[..j][1..];
      }
    }
  }

  lemma {:induction false} AheadLeavesFirst(s: Sched, ops: seq<Op>, first: Job, second: Job)
    requires SchedOk(s) && Ahead(s.Queue(second.priority), first, second) && LeavesAlone(ops, first, second)
    ensures InOrder(PoppedBy(s, ops), first, second)
    decreases |ops|
  {
    hide Ahead; hide PushTo; hide PopFrom; hide SchedOk; hide Sched.Queue; hide NoHeadEligible; hide Sched.Jobs;
    if ops != [] {
      var popped, t, rest := Apply(s, ops[0]).0, Apply(s, ops[0]).1, ops[1..];
      assert LeavesAlone(rest, first, second) by {
        assert forall i :: 0 <= i < |rest| ==> rest[i] == ops[i + 1];
      }
      hide LeavesAlone;
      match ops[0]
      case PushOp(job) =>
        PushToAhead(s, job, first, second) by {
          assert LeavesAlone(ops, first, second);
        }
        PushKeepsSched(s, job);
        AheadLeavesFirst(t, rest, first, second);
        assert [] + PoppedBy(t, rest) == PoppedBy(t, rest);
      case PopOp(eligible) =>
        PopAhead(s, eligible, first, second);
        PopKeepsSched(s, eligible);
        if popped != Some(first) {
          AheadLeavesFirst(t, rest, first, second);
        }
        if popped.Some? {
          OneEarlier(popped.value, PoppedBy(t, rest), first, second);
        } else {
          assert [] + PoppedBy(t, rest) == PoppedBy(t, rest);
        }
    }
  }

  /** A job pushed while another of its priority waits in its group comes out only after that
      one, over any pushes of other jobs and any pops under whatever limits then apply. */
  lemma {:induction false} FirstInFirstOut(s: Sched, ops: seq<Op>, first: Job, second: Job)
    requires SchedOk(s) && first in s.Jobs() && first.id != second.id
    requires first.priority == second.priority && FairnessKey(first) == FairnessKey(second)
    requires LeavesAlone(ops, first, second)
    ensures InOrder(PoppedBy(PushTo(s, second), ops), first, second)
  {
    PushKeepsSched(s, second);
    ArrivesBehind(s, first, second);
    hide PushTo; hide Ahead; hide SchedOk; hide Sched.Jobs; hide FairnessKey; hide LeavesAlone;
    AheadLeavesFirst(PushTo(s, second), ops, first, second);
  }

  lemma {:induction false} ArrivesBehind(s: Sched, first: Job, second: Job)
    requires SchedOk(s) && first in s.Jobs() && first.id != second.id
    requires first.priority == second.priority && FairnessKey(first) == FairnessKey(second)
    ensures Ahead(PushTo(s, second).Queue(second.priority), first, second)
  {
    var p := second.priority;
    var t := if second.id in s.pending then RemoveId(s, second.id) else s;
    if second.id in s.pending {
      RemoveKeepsSched(s, second.id);
    }
    OwnQueue(t, first);
    assert QueueOk(t.Queue(p), p);
    PushedQueue(s, second, p);
    hide PushTo; hide PushJob; hide RemoveId; hide Ahead; hide Held; hide FairnessKey; hide QueueOk; hide SchedOk;
    hide Sched.Jobs;
    PushedBehind(t.Queue(p), second, first);
  }

  /** A waiting job waits in the queue of its own priority. */
  lemma {:induction false} OwnQueue(s: Sched, job: Job)
    requires SchedOk(s) && job in s.Jobs()
    ensures job in Held(s.Queue(job.priority))
  {
    JobsByQueue(s, job);
    var p: JobPriority :| job in Held(s.Queue(p));
    var q := s.Queue(p);
    var g, i :| 0 <= g < |q| && 0 <= i < |q[g].jobs| && q[g].jobs[i] == job;
    assert QueueOk(q, p) && GroupOk(q[g], p);
    hide FairnessKey; hide Sched.Queue; hide Sched.Jobs;
  }
}
