/** What the scheduler's rotation and weights guarantee: the exact place of every
    job in a drained queue, and bounds on waiting under arbitrary pushes. */
module Fairness {
  import opened Options
  import opened JobModel
  import opened Scheduler

  // ------------------------------------------------------ exact round robin

  predicate NoEmptyGroup(q: seq<Group>) {
    forall a :: 0 <= a < |q| ==> q[a].jobs != []
  }

  function Total(q: seq<Group>): nat {
    if q == [] then 0 else |q[0].jobs| + Total(q[1..])
  }

  lemma {:induction false} TotalSplit(q: seq<Group>, r: seq<Group>)
    ensures Total(q + r) == Total(q) + Total(r)
  {
    if q == [] {
      assert q + r == r;
    } else {
      assert (q + r)[1..] == q[1..] + r;
      TotalSplit(q[1..], r);
    }
  }

  function Anyone(): Job -> bool {
    (job: Job) => true
  }

  lemma {:induction false} PopFirstGroup(q: seq<Group>)
    requires NoEmptyGroup(q) && q != []
    ensures PopJob(q, Anyone()) == (Some(q[0].jobs[0]), q[1..] + Rest(q[0]))
    ensures NoEmptyGroup(q[1..] + Rest(q[0])) && Total(q[1..] + Rest(q[0])) == Total(q) - 1
  {
    assert FirstEligible(q, Anyone()) == 0;
    assert q[1..] + q[..0] == q[1..];
    TotalSplit(q[1..], Rest(q[0]));
  }

  /** The order in which an untouched queue hands out its jobs. */
  ghost function PopOrder(q: seq<Group>): seq<Job>
    requires NoEmptyGroup(q)
    decreases Total(q)
  {
    if q == [] then []
    else
      PopFirstGroup(q);
      var (popped, r) := PopJob(q, Anyone());
      [popped.value] + PopOrder(r)
  }

  /** How many jobs these groups hand out in `rounds` rounds. */
  function HandedOut(q: seq<Group>, rounds: nat): nat {
    if q == [] then 0
    else (if |q[0].jobs| < rounds then |q[0].jobs| else rounds) + HandedOut(q[1..], rounds)
  }

  lemma {:induction false} HandedOutSplit(q: seq<Group>, r: seq<Group>, rounds: nat)
    ensures HandedOut(q + r, rounds) == HandedOut(q, rounds) + HandedOut(r, rounds)
  {
    if q == [] {
      assert q + r == r;
    } else {
      assert (q + r)[1..] == q[1..] + r;
      HandedOutSplit(q[1..], r, rounds);
    }
  }

  /** The jobs served before job `k` of group `p`: its elders in the group, one
      more round of the groups ahead, and as many rounds of the groups behind. */
  function JobsBefore(q: seq<Group>, p: nat, k: nat): nat
    requires p < |q|
  {
    k + HandedOut(q[..p], k + 1) + HandedOut(q[p + 1..], k)
  }

  /** The groups after the front one has been served once. */
  function Turned(q: seq<Group>): seq<Group>
    requires q != [] && q[0].jobs != []
  {
    q[1..] + Rest(q[0])
  }

  lemma {:induction false} PopOrderStep(q: seq<Group>)
    requires NoEmptyGroup(q) && q != []
    ensures var r := Turned(q);
            && NoEmptyGroup(r) && Total(r) < Total(q)
            && PopOrder(q) == [q[0].jobs[0]] + PopOrder(r)
  {
    PopFirstGroup(q);
    hide PopJob; hide Total;
  }

  lemma {:induction false} PopOrderAt(q: seq<Group>, n: nat)
    requires NoEmptyGroup(q) && q != [] && NoEmptyGroup(Turned(q))
    ensures |PopOrder(q)| == 1 + |PopOrder(Turned(q))|
    ensures n == 0 ==> PopOrder(q)[n] == q[0].jobs[0]
    ensures 0 < n < |PopOrder(q)| ==> PopOrder(q)[n] == PopOrder(Turned(q))[n - 1]
  {
    PopOrderStep(q);
    hide PopOrder; hide NoEmptyGroup; hide Turned;
  }

  // The turn of the group in front leaves its later jobs a full round behind the others.
  lemma {:induction false} FrontTurn(q: seq<Group>, k: nat)
    requires NoEmptyGroup(q) && q != [] && 0 < k < |q[0].jobs|
    ensures var r := Turned(q);
            |r| == |q| && r[|q| - 1].jobs == q[0].jobs[1..] && JobsBefore(q, 0, k) == 1 + JobsBefore(r, |q| - 1, k - 1)
  {
    var r := Turned(q);
    assert r[..|q| - 1] == q[1..] && r[|q|..] == [] && q[..0] == [];
    assert HandedOut([], k + 1) == 0 && HandedOut([], k - 1) == 0;
    hide HandedOut;
  }

  lemma {:induction false} FrontNow(q: seq<Group>)
    requires q != []
    ensures JobsBefore(q, 0, 0) == 0
  {
    assert q[..0] == [];
    NothingInNoRounds(q[1..]);
  }

  /** Job `k` of group `p` comes out right after the jobs counted before it. */
  ghost predicate ComesAfter(q: seq<Group>, p: nat, k: nat)
    requires NoEmptyGroup(q) && p < |q| && k < |q[p].jobs|
  {
    JobsBefore(q, p, k) < |PopOrder(q)| && PopOrder(q)[JobsBefore(q, p, k)] == q[p].jobs[k]
  }

  lemma {:induction false} OnePopLater(q: seq<Group>, p: nat, k: nat, p2: nat, k2: nat)
    requires NoEmptyGroup(q) && p < |q| && k < |q[p].jobs| && NoEmptyGroup(Turned(q))
    requires p2 < |Turned(q)| && k2 < |Turned(q)[p2].jobs|
    requires Turned(q)[p2].jobs[k2] == q[p].jobs[k] && JobsBefore(q, p, k) == 1 + JobsBefore(Turned(q), p2, k2)
    requires ComesAfter(Turned(q), p2, k2)
    ensures ComesAfter(q, p, k)
  {
    PopOrderAt(q, JobsBefore(q, p, k));
    hide PopOrder; hide JobsBefore; hide NoEmptyGroup; hide Turned;
  }

  lemma {:induction false} ComesInTurn(q: seq<Group>, p: nat, k: nat)
    requires NoEmptyGroup(q) && p < |q| && k < |q[p].jobs|
    ensures ComesAfter(q, p, k)
    decreases Total(q)
  {
    var r := Turned(q);
    PopOrderStep(q);
    hide PopOrder; hide JobsBefore; hide Total; hide NoEmptyGroup; hide Turned;
    if p > 0 {
      OneTurnAhead(q, p, k);
      hide ComesAfter;
      ComesInTurn(r, p - 1, k);
      OnePopLater(q, p, k, p - 1, k);
    } else if k > 0 {
      FrontTurn(q, k);
      hide ComesAfter;
      ComesInTurn(r, |q| - 1, k - 1);
      OnePopLater(q, p, k, |q| - 1, k - 1);
    } else {
      FrontNow(q);
      PopOrderAt(q, 0);
    }
  }

  lemma {:induction false} RoundRobinIsExact(q: seq<Group>, p: nat, k: nat)
    requires NoEmptyGroup(q) && p < |q| && k < |q[p].jobs|
    ensures JobsBefore(q, p, k) < |PopOrder(q)| == Total(q)
    ensures PopOrder(q)[JobsBefore(q, p, k)] == q[p].jobs[k]
  {
    ComesInTurn(q, p, k);
    PopOrderLength(q);
    hide PopOrder; hide JobsBefore; hide Total; hide NoEmptyGroup;
  }

  lemma {:induction false} PopOrderLength(q: seq<Group>)
    requires NoEmptyGroup(q)
    ensures |PopOrder(q)| == Total(q)
    decreases Total(q)
  {
    if q != [] {
      PopFirstGroup(q);
      PopOrderLength(q[1..] + Rest(q[0]));
    }
  }

  lemma {:induction false} NothingInNoRounds(q: seq<Group>)
    ensures HandedOut(q, 0) == 0
  {
    if q != [] {
      NothingInNoRounds(q[1..]);
    }
  }

  // Serving the group in front brings every job of the other groups one place forward.
  lemma {:induction false} OneTurnAhead(q: seq<Group>, p: nat, k: nat)
    requires NoEmptyGroup(q) && 0 < p < |q|
    ensures p - 1 < |Turned(q)| && Turned(q)[p - 1] == q[p]
    ensures JobsBefore(q, p, k) == 1 + JobsBefore(Turned(q), p - 1, k)
  {
    var r := q[1..] + Rest(q[0]);
    assert q[..p] == [q[0]] + q[1..p];
    assert r[..p - 1] == q[1..p];
    assert r[p..] == q[p + 1..] + Rest(q[0]);
    HandedOutSplit([q[0]], q[1..p], k + 1);
    HandedOutSplit(q[p + 1..], Rest(q[0]), k);
    assert HandedOut([q[0]], k + 1) == (if |q[0].jobs| < k + 1 then |q[0].jobs| else k + 1) + HandedOut([], k + 1);
    assert |q[0].jobs| > 1 ==>
      HandedOut(Rest(q[0]), k) == (if |q[0].jobs| - 1 < k then |q[0].jobs| - 1 else k) + HandedOut([], k);
  }

  // ------------------------------------------------------- weighted service

  /** Slots to pass before this priority's turn, and the most there can be plus one. */
  function SlotsUntil(cursor: nat, priority: JobPriority): nat
    requires cursor < 6
  {
    match priority
    case High => cursor % 2
    case Normal => if cursor <= 1 then 1 - cursor else 5 - cursor
    case Low => (9 - cursor) % 6
  }

  function Period(priority: JobPriority): nat {
    match priority
    case High => 2
    case Normal => 4
    case Low => 6
  }

  lemma {:induction false} SlotsUntilIsFirst(cursor: nat, priority: JobPriority)
    requires cursor < 6
    ensures SlotsUntil(cursor, priority) < Period(priority)
    ensures SlotAt(cursor + SlotsUntil(cursor, priority)) == priority
  {
  }

  /** A pop while this priority has an eligible head either serves the priority,
      or serves another one at an earlier slot and brings its turn nearer. */
  lemma {:induction false} PopTowards(s: Sched, eligible: Job -> bool, priority: JobPriority)
    requires SchedOk(s) && HasEligible(s.Queue(priority), eligible)
    ensures var popped, t := PopFrom(s, eligible).0, PopFrom(s, eligible).1;
            && popped.Some? && t.cursor < 6
            && if popped.value.priority == priority then
                 PopJob(s.Queue(priority), eligible) == (popped, t.Queue(priority))
               else
                 t.Queue(priority) == s.Queue(priority)
                 && SlotsUntil(t.cursor, priority) < SlotsUntil(s.cursor, priority)
  {
    hide QueueOk; hide PopJob; hide HasEligible; hide FirstSlot; hide ServeSlot; hide SlotAt; hide Sched.Jobs;
    SlotsUntilIsFirst(s.cursor, priority);
    FirstSlotIsFirst(s, eligible);
    var d, k := SlotsUntil(s.cursor, priority), FirstSlot(s, eligible);
    assert SlotEligible(s, eligible, d);
    assert k <= d;
    SlotKeepsSched(s, eligible, k);
    SlotTurns(s, eligible, k, priority);
    if SlotAt(s.cursor + k) != priority {
      TurnNearer(s.cursor, k, priority);
    }
  }

  lemma {:induction false} SlotTurns(s: Sched, eligible: Job -> bool, k: nat, priority: JobPriority)
    ensures var popped, t := ServeSlot(s, eligible, k).0, ServeSlot(s, eligible, k).1;
            && t.cursor == (s.cursor + k + 1) % 6
            && (SlotAt(s.cursor + k) == priority ==> PopJob(s.Queue(priority), eligible) == (popped, t.Queue(priority)))
            && (SlotAt(s.cursor + k) != priority ==> t.Queue(priority) == s.Queue(priority))
  {
    hide PopJob; hide SlotAt;
  }

  lemma {:induction false} TurnNearer(cursor: nat, k: nat, priority: JobPriority)
    requires cursor < 6 && k < SlotsUntil(cursor, priority)
    ensures SlotsUntil((cursor + k + 1) % 6, priority) == SlotsUntil(cursor, priority) - k - 1
  {
  }

  /** One successful pop, among pushes and removals that leave the cursor alone. */
  datatype Pop = Pop(before: Sched, eligible: Job -> bool, job: Job, after: Sched)

  ghost predicate PopLog(log: seq<Pop>) {
    && (forall i :: 0 <= i < |log| ==>
          SchedOk(log[i].before) && PopFrom(log[i].before, log[i].eligible) == (Some(log[i].job), log[i].after))
    && (forall i :: 0 < i < |log| ==> log[i].before.cursor == log[i - 1].after.cursor)
  }

  ghost predicate AlwaysReady(log: seq<Pop>, priority: JobPriority) {
    forall i :: 0 <= i < |log| ==> HasEligible(log[i].before.Queue(priority), log[i].eligible)
  }

  /** In any 2 (High), 4 (Normal) or 6 (Low) consecutive pops a ready priority is served. */
  lemma {:induction false} ReadyPriorityIsServed(log: seq<Pop>, priority: JobPriority)
    requires PopLog(log) && AlwaysReady(log, priority) && |log| == Period(priority)
    ensures exists i :: 0 <= i < |log| && log[i].job.priority == priority
  {
    var n := SlotsUntil(log[0].before.cursor, priority);
    SlotsUntilIsFirst(log[0].before.cursor, priority);
    ServedByItsTurn(log, priority, n);
  }

  lemma {:induction false} ServedByItsTurn(log: seq<Pop>, priority: JobPriority, n: nat)
    requires PopLog(log) && AlwaysReady(log, priority) && n < |log|
    requires log[0].before.cursor < 6 && SlotsUntil(log[0].before.cursor, priority) <= n
    ensures exists i :: 0 <= i <= n && log[i].job.priority == priority
    decreases n
  {
    hide SchedOk; hide PopFrom; hide HasEligible; hide SlotsUntil; hide PopJob;
    PopTowards(log[0].before, log[0].eligible, priority);
    if log[0].job.priority != priority {
      var rest := log[1..];
      assert rest[0].before.cursor == log[0].after.cursor;
      assert forall i :: 0 <= i < |rest| ==> rest[i] == log[i + 1];
      ServedByItsTurn(rest, priority, n - 1);
      var i :| 0 <= i <= n - 1 && rest[i].job.priority == priority;
      assert log[i + 1].job.priority == priority;
    }
  }

  function CountPops(log: seq<Pop>, priority: JobPriority): nat {
    if log == [] then 0 else (if log[0].job.priority == priority then 1 else 0) + CountPops(log[1..], priority)
  }

  /** When all three priorities are ready, the slots are followed exactly, so any
      six consecutive pops serve three High, two Normal and one Low job. */
  lemma {:induction false} AllReadyFollowsSlots(log: seq<Pop>)
    requires PopLog(log) && log != []
    requires AlwaysReady(log, High) && AlwaysReady(log, Normal) && AlwaysReady(log, Low)
    ensures forall i :: 0 <= i < |log| ==> log[i].job.priority == SlotAt(log[0].before.cursor + i)
    ensures |log| == 6 ==> CountPops(log, High) == 3 && CountPops(log, Normal) == 2 && CountPops(log, Low) == 1
  {
    hide SlotAt; hide CountPops; hide PopFrom; hide HasEligible; hide QueueOk; hide HeldIds; hide Sched.Queue;
    var c := log[0].before.cursor;
    forall i | 0 <= i < |log| ensures log[i].job.priority == SlotAt(c + i) {
      ReadyAt(log, i);
    }
    if |log| == 6 {
      SixPops(log, c);
    }
  }

  function CursorAt(c: nat, i: nat): nat {
    (c + i) % 6
  }

  lemma {:induction false} CursorMoves(c: nat, i: nat)
    ensures CursorAt(c, i) < 6 && SlotAt(CursorAt(c, i)) == SlotAt(c + i)
    ensures (CursorAt(c, i) + 1) % 6 == CursorAt(c, i + 1)
    ensures c < 6 ==> CursorAt(c, 0) == c
  {
    SlotShift(c, i);
    hide SlotAt;
  }

  lemma {:induction false} ReadyAt(log: seq<Pop>, i: nat)
    requires PopLog(log) && i < |log|
    requires AlwaysReady(log, High) && AlwaysReady(log, Normal) && AlwaysReady(log, Low)
    ensures log[i].before.cursor == CursorAt(log[0].before.cursor, i)
    ensures log[i].after.cursor == CursorAt(log[0].before.cursor, i + 1)
    ensures log[i].job.priority == SlotAt(log[0].before.cursor + i)
  {
    hide SlotAt; hide PopFrom; hide HasEligible; hide Sched.Queue; hide SchedOk; hide PopLog; hide AlwaysReady;
    hide CursorAt;
    var c := log[0].before.cursor;
    LogAt(log, 0);
    LogAt(log, i);
    CursorMoves(c, 0);
    CursorMoves(c, i);
    if i > 0 {
      ReadyAt(log, i - 1);
    }
    FirstSlotServed(log[i].before, log[i].eligible);
  }

  lemma {:induction false} LogAt(log: seq<Pop>, i: nat)
    requires PopLog(log) && i < |log|
    requires AlwaysReady(log, High) && AlwaysReady(log, Normal) && AlwaysReady(log, Low)
    ensures SchedOk(log[i].before) && log[i].before.cursor < 6
    ensures PopFrom(log[i].before, log[i].eligible) == (Some(log[i].job), log[i].after)
    ensures i > 0 ==> log[i].before.cursor == log[i - 1].after.cursor
    ensures HasEligible(log[i].before.Queue(SlotAt(log[i].before.cursor)), log[i].eligible)
  {
    hide PopFrom; hide HasEligible; hide QueueOk; hide HeldIds; hide SlotAt;
    ReadyAtSlot(log[i].before, log[i].eligible);
  }

  lemma {:induction false} FirstSlotServed(s: Sched, eligible: Job -> bool)
    requires SchedOk(s) && HasEligible(s.Queue(SlotAt(s.cursor)), eligible)
    ensures var popped, t := PopFrom(s, eligible).0, PopFrom(s, eligible).1;
            popped.Some? && popped.value.priority == SlotAt(s.cursor) && t.cursor == (s.cursor + 1) % 6
  {
    hide SlotAt; hide QueueOk; hide HasEligible; hide PopJob; hide HeldIds; hide Sched.Jobs; hide PopFrom;
    hide Sched.Queue;
    assert s.cursor + 0 == s.cursor;
    assert SlotEligible(s, eligible, 0);
    hide SlotEligible; hide ServeSlot;
    ServedSlot(s, eligible, 0);
    FirstWhenReady(s, eligible);
    SlotKeepsSched(s, eligible, 0);
  }

  lemma {:induction false} ReadyAtSlot(s: Sched, eligible: Job -> bool)
    requires HasEligible(s.Queue(High), eligible) && HasEligible(s.Queue(Normal), eligible)
            && HasEligible(s.Queue(Low), eligible)
    ensures HasEligible(s.Queue(SlotAt(s.cursor)), eligible)
  {
    hide SlotAt; hide HasEligible;
  }

  lemma {:induction false} FirstWhenReady(s: Sched, eligible: Job -> bool)
    requires SlotEligible(s, eligible, 0)
    ensures PopFrom(s, eligible) == ServeSlot(s, eligible, 0)
  {
    hide SlotEligible; hide ServeSlot;
  }

  lemma {:induction false} SixPops(log: seq<Pop>, c: nat)
    requires |log| == 6 && c < 6 && forall i :: 0 <= i < 6 ==> log[i].job.priority == SlotAt(c + i)
    ensures CountPops(log, High) == 3 && CountPops(log, Normal) == 2 && CountPops(log, Low) == 1
  {
    hide CountPops;
    SixCounts(log, High);
    SixCounts(log, Normal);
    SixCounts(log, Low);
    SixSlots(c);
    hide SlotAt; hide Is;
    assert c + 0 == c;
  }

  lemma {:induction false} SixSlots(c: nat)
    requires c < 6
    ensures forall p: JobPriority :: Is(SlotAt(c), p) + Is(SlotAt(c + 1), p) + Is(SlotAt(c + 2), p)
                                     + Is(SlotAt(c + 3), p) + Is(SlotAt(c + 4), p) + Is(SlotAt(c + 5), p)
                                     == (match p case High => 3 case Normal => 2 case Low => 1)
  {
    if c < 3 {
      assert c == 0 || c == 1 || c == 2;
    } else {
      assert c == 3 || c == 4 || c == 5;
    }
  }

  lemma {:induction false} SixCounts(log: seq<Pop>, p: JobPriority)
    requires |log| == 6
    ensures CountPops(log, p) == Is(log[0].job.priority, p) + Is(log[1].job.priority, p) + Is(log[2].job.priority, p)
                                 + Is(log[3].job.priority, p) + Is(log[4].job.priority, p) + Is(log[5].job.priority, p)
  {
    assert CountPops(log[6..], p) == 0;
    CountFrom(log, p, 5);
    CountFrom(log, p, 4);
    CountFrom(log, p, 3);
    CountFrom(log, p, 2);
    CountFrom(log, p, 1);
    CountFrom(log, p, 0);
    assert log[0..] == log;
    hide CountPops; hide Is;
  }

  function Is(a: JobPriority, b: JobPriority): nat {
    if a == b then 1 else 0
  }

  lemma {:induction false} CountFrom(log: seq<Pop>, p: JobPriority, i: nat)
    requires i < |log|
    ensures CountPops(log[i..], p) == Is(log[i].job.priority, p) + CountPops(log[i + 1..], p)
  {
    assert log[i..][1..] == log[i + 1..];
  }

  // ------------------------------------------------- how long a head waits

  /** What may happen to the scheduler: a push (which may replace a pending job)
      or a pop under whatever limits then apply. */
  datatype Op = PushOp(job: Job) | PopOp(eligible: Job -> bool)

  function Apply(s: Sched, op: Op): (Option<Job>, Sched) {
    match op
    case PushOp(job) => (None, PushTo(s, job))
    case PopOp(eligible) => PopFrom(s, eligible)
  }

  function PoppedBy(s: Sched, ops: seq<Op>): seq<Job>
    decreases |ops|
  {
    if ops == [] then []
    else
      var (popped, t) := Apply(s, ops[0]);
      (if popped.Some? then [popped.value] else []) + PoppedBy(t, ops[1..])
  }

  function PopCount(ops: seq<Op>): nat {
    if ops == [] then 0 else (if ops[0].PopOp? then 1 else 0) + PopCount(ops[1..])
  }

  ghost predicate HeadAt(q: seq<Group>, p: nat, job: Job) {
    p < |q| && q[p].jobs != [] && q[p].jobs[0] == job
  }

  /** No push replaces the job and no pop finds it over the limits. */
  ghost predicate Undisturbed(ops: seq<Op>, job: Job) {
    forall i :: 0 <= i < |ops| ==>
      match ops[i]
      case PushOp(other) => other.id != job.id
      case PopOp(eligible) => eligible(job)
  }

  /** A job at the head of the group at position `p` of its queue is popped within
      `Period * (p + 1)` pops, whatever is pushed meanwhile: 6(p + 1) for Low. */
  lemma {:induction false} HeadWaitIsBounded(s: Sched, ops: seq<Op>, p: nat, job: Job)
    requires SchedOk(s) && HeadAt(s.Queue(job.priority), p, job) && Undisturbed(ops, job)
    requires PopCount(ops) >= Period(job.priority) * (p + 1)
    ensures job in PoppedBy(s, ops)
  {
    SlotsUntilIsFirst(s.cursor, job.priority);
    PoppedInTime(s, ops, p, job);
  }

  function Patience(s: Sched, p: nat, priority: JobPriority): int
    requires s.cursor < 6
  {
    Period(priority) * p + SlotsUntil(s.cursor, priority)
  }

  lemma {:induction false} PoppedInTime(s: Sched, ops: seq<Op>, p: nat, job: Job)
    requires SchedOk(s) && HeadAt(s.Queue(job.priority), p, job) && Undisturbed(ops, job)
    requires PopCount(ops) > Patience(s, p, job.priority)
    ensures job in PoppedBy(s, ops)
    decreases |ops|
  {
    hide QueueOk; hide HeldIds; hide PushTo; hide PopFrom; hide HeadAt; hide Patience; hide Sched.Queue;
    hide Sched.Jobs;
    PatienceIsPositive(s, p, job.priority);
    assert ops != [];
    var popped, t, rest := Apply(s, ops[0]).0, Apply(s, ops[0]).1, ops[1..];
    assert Undisturbed(rest, job);
    if ops[0].PushOp? {
      var g := PushServesHead(s, ops[0].job, p, job);
      PoppedInTime(t, rest, g, job);
    } else {
      var g := PopServesHead(s, ops[0].eligible, p, job);
      if popped != Some(job) {
        PoppedInTime(t, rest, g, job);
      }
    }
  }

  lemma {:induction false} PatienceIsPositive(s: Sched, p: nat, priority: JobPriority)
    requires s.cursor < 6
    ensures Patience(s, p, priority) >= 0
  {
    SlotsUntilIsFirst(s.cursor, priority);
  }

  lemma {:induction false} PushServesHead(s: Sched, other: Job, p: nat, job: Job) returns (g: nat)
    requires SchedOk(s) && HeadAt(s.Queue(job.priority), p, job) && other.id != job.id
    ensures SchedOk(PushTo(s, other)) && HeadAt(PushTo(s, other).Queue(job.priority), g, job)
    ensures Patience(PushTo(s, other), g, job.priority) <= Patience(s, p, job.priority)
  {
    hide QueueOk; hide HeldIds; hide HeadAt; hide Sched.Jobs; hide PushJob; hide RemoveJob;
    PushKeepsSched(s, other);
    g := PushKeepsHead(s, other, p, job);
    LessPeriods(job.priority, g, p);
    assert PushTo(s, other).cursor == s.cursor;
  }

  // A pop that does not return the job spends some of its patience.
  lemma {:induction false} PopServesHead(s: Sched, eligible: Job -> bool, p: nat, job: Job) returns (g: nat)
    requires SchedOk(s) && HeadAt(s.Queue(job.priority), p, job) && eligible(job)
    ensures PopFrom(s, eligible).0.Some? && SchedOk(PopFrom(s, eligible).1)
    ensures PopFrom(s, eligible).0 != Some(job) ==>
              var t := PopFrom(s, eligible).1;
              HeadAt(t.Queue(job.priority), g, job) && Patience(t, g, job.priority) < Patience(s, p, job.priority)
  {
    hide SchedOk; hide PopFrom; hide HasEligible; hide PopJob; hide HeadAt; hide SlotsUntil; hide Period; hide Patience;
    hide Sched.Queue; hide Sched.Jobs; hide NoHeadEligible;
    SchedCursor(s);
    PopKeepsSched(s, eligible);
    HeadIsEligible(s.Queue(job.priority), eligible, p, job);
    PopTowards(s, eligible, job.priority);
    var popped, t := PopFrom(s, eligible).0, PopFrom(s, eligible).1;
    g := p;
    if popped != Some(job) {
      if popped.value.priority == job.priority {
        g := PopMovesHead(s.Queue(job.priority), eligible, p, job);
      }
      LessPatience(s, t, g, p, job.priority);
    }
  }

  lemma {:induction false} LessPeriods(priority: JobPriority, g: nat, p: nat)
    requires g <= p
    ensures Period(priority) * g <= Period(priority) * p
  {
  }

  lemma {:induction false} SchedCursor(s: Sched)
    requires SchedOk(s)
    ensures s.cursor < 6
  {
  }

  // One group nearer outweighs any number of slots, and one slot nearer counts too.
  lemma {:induction false} LessPatience(s: Sched, t: Sched, g: nat, p: nat, priority: JobPriority)
    requires s.cursor < 6 && t.cursor < 6
    requires g < p || (g == p && SlotsUntil(t.cursor, priority) < SlotsUntil(s.cursor, priority))
    ensures Patience(t, g, priority) < Patience(s, p, priority)
  {
    SlotsUntilIsFirst(t.cursor, priority);
    SlotsUntilIsFirst(s.cursor, priority);
    hide SlotsUntil; hide SlotAt;
    match priority
    case High =>
    case Normal =>
    case Low =>
  }

  lemma {:induction false} HeadIsEligible(q: seq<Group>, eligible: Job -> bool, p: nat, job: Job)
    requires HeadAt(q, p, job) && eligible(job)
    ensures FirstEligible(q, eligible) <= p && HasEligible(q, eligible)
  {
    FirstEligibleIsFirst(q, eligible);
    assert HeadEligible(q[p], eligible);
  }

  lemma {:induction false} PopMovesHead(q: seq<Group>, eligible: Job -> bool, p: nat, job: Job) returns (g: nat)
    requires HeadAt(q, p, job) && eligible(job) && PopJob(q, eligible).0 != Some(job)
    ensures g < p && HeadAt(PopJob(q, eligible).1, g, job)
  {
    HeadIsEligible(q, eligible, p, job);
    var i := FirstEligible(q, eligible);
    g := p - i - 1;
    assert PopJob(q, eligible).1[g] == q[p];
  }

  lemma {:induction false} PushKeepsHead(s: Sched, other: Job, p: nat, job: Job) returns (g: nat)
    requires HeadAt(s.Queue(job.priority), p, job) && other.id != job.id
    ensures g <= p && HeadAt(PushTo(s, other).Queue(job.priority), g, job)
  {
    var t := if other.id in s.pending then RemoveId(s, other.id) else s;
    if other.id in s.pending {
      g := RemoveKeepsHead(s.Queue(job.priority), other.id, p, job);
    } else {
      g := p;
    }
    assert HeadAt(t.Queue(job.priority), g, job) by {
      hide HeadAt; hide RemoveJob;
    }
    AppendKeepsHead(t.Queue(job.priority), other, g, job);
    WithQueue(t, other.priority, PushJob(t.Queue(other.priority), other));
    PushedQueue(s, other, job.priority);
    hide HeadAt; hide PushJob; hide RemoveId; hide PushTo; hide Sched.With; hide Sched.Queue;
  }

  lemma {:induction false} PushedQueue(s: Sched, other: Job, p: JobPriority)
    ensures var t := if other.id in s.pending then RemoveId(s, other.id) else s;
            PushTo(s, other).Queue(p) == if p == other.priority then PushJob(t.Queue(p), other) else t.Queue(p)
  {
    hide PushJob; hide RemoveId;
  }

  lemma {:induction false} AppendKeepsHead(q: seq<Group>, other: Job, p: nat, job: Job)
    requires HeadAt(q, p, job)
    ensures HeadAt(PushJob(q, other), p, job)
  {
    hide FairnessKey; hide FindGroup;
  }

  lemma {:induction false} RemoveKeepsHead(q: seq<Group>, id: string, p: nat, job: Job) returns (g: nat)
    requires HeadAt(q, p, job) && id != job.id
    ensures g <= p && HeadAt(RemoveJob(q, id), g, job)
  {
    var t := StripGroups(q, id);
    if p == 0 {
      g := 0;
      assert WithoutId(q[0].jobs, id)[0] == job;
    } else {
      var h := RemoveKeepsHead(q[1..], id, p - 1, job);
      g := if t[0].jobs != [] then h + 1 else h;
    }
  }
}
