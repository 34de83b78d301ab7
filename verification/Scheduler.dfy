/** The fair scheduler of `src/jobs/scheduler.rs`: three priority queues, each a
    rotating list of per-subscription groups, served through six weighted slots. */
module Scheduler {
  import opened Options
  import opened JobModel

  datatype Group = Group(key: string, jobs: seq<Job>)

  const PRIORITY_SLOTS: seq<JobPriority> := [High, Normal, High, Low, High, Normal]

  function FairnessKey(job: Job): string {
    match SubscriptionOf(job)
    case Some(id) => "subscription:" + id
    case None => "kind:" + job.kind.Name()
  }

  /** Two jobs take turns in one group exactly if their payloads name the same subscription,
      whatever their kinds, or they are of one kind and name none. A manual transfer never
      takes a subscription's turn. */
  lemma {:induction false} SameTurnIff(a: Job, b: Job)
    ensures FairnessKey(a) == FairnessKey(b) <==>
            if a.kind.ManualTransfer? || b.kind.ManualTransfer? then a.kind == b.kind
            else a.payload.subscription == b.payload.subscription
                 && (a.payload.subscription.None? ==> a.kind == b.kind)
  {
    var s, k := "subscription:", "kind:";
    hide JobKind.Name;
    match (SubscriptionOf(a), SubscriptionOf(b)) {
      case (Some(x), Some(y)) => assert (s + x)[|s|..] == x && (s + y)[|s|..] == y;
      case (Some(x), None) => assert (s + x)[0] == 's' && (k + b.kind.Name())[0] == 'k';
      case (None, Some(y)) => assert (s + y)[0] == 's' && (k + a.kind.Name())[0] == 'k';
      case (None, None) =>
        assert (k + a.kind.Name())[|k|..] == a.kind.Name() && (k + b.kind.Name())[|k|..] == b.kind.Name();
        if a.kind.Name() == b.kind.Name() {
          NameIsInjective(a.kind, b.kind);
        }
    }
  }

  // ---------------------------------------------------------------- one queue

  /** The first group with this key, or the number of groups. */
  function FindGroup(q: seq<Group>, key: string): (i: nat)
    ensures i <= |q|
    ensures forall k :: 0 <= k < i ==> q[k].key != key
    ensures i < |q| ==> q[i].key == key
  {
    if q == [] || q[0].key == key then 0 else 1 + FindGroup(q[1..], key)
  }

  function PushJob(q: seq<Group>, job: Job): seq<Group> {
    var i := FindGroup(q, FairnessKey(job));
    if i < |q| then q[i := q[i].(jobs := q[i].jobs + [job])]
    else q + [Group(FairnessKey(job), [job])]
  }

  predicate HeadEligible(g: Group, eligible: Job -> bool) {
    g.jobs != [] && eligible(g.jobs[0])
  }

  /** The first group whose head may run, or the number of groups. */
  function FirstEligible(q: seq<Group>, eligible: Job -> bool): (i: nat)
    ensures i <= |q|
    ensures i < |q| ==> HeadEligible(q[i], eligible)
  {
    if q == [] || HeadEligible(q[0], eligible) then 0 else 1 + FirstEligible(q[1..], eligible)
  }

  lemma {:induction false} FirstEligibleIsFirst(q: seq<Group>, eligible: Job -> bool)
    ensures forall k :: 0 <= k < FirstEligible(q, eligible) ==> !HeadEligible(q[k], eligible)
  {
    if q != [] && !HeadEligible(q[0], eligible) {
      FirstEligibleIsFirst(q[1..], eligible);
    }
  }

  lemma {:induction false} FirstEligibleIs(q: seq<Group>, eligible: Job -> bool, i: nat)
    requires i <= |q| && (i < |q| ==> HeadEligible(q[i], eligible))
    requires forall k :: 0 <= k < i ==> !HeadEligible(q[k], eligible)
    ensures FirstEligible(q, eligible) == i
  {
    FirstEligibleIsFirst(q, eligible);
  }

  function Rest(g: Group): seq<Group>
    requires g.jobs != []
  {
    if |g.jobs| == 1 then [] else [g.(jobs := g.jobs[1..])]
  }

  /** What popping returns and leaves: the groups passed over go to the back, in
      order, followed by what remains of the group that was served. */
  function PopJob(q: seq<Group>, eligible: Job -> bool): (Option<Job>, seq<Group>) {
    var i := FirstEligible(q, eligible);
    if i == |q| then (None, q)
    else (Some(q[i].jobs[0]), q[i + 1..] + q[..i] + Rest(q[i]))
  }

  function WithoutId(jobs: seq<Job>, id: string): (r: seq<Job>)
    ensures forall j :: j in r <==> j in jobs && j.id != id
    ensures (forall j :: j in jobs ==> j.id != id) ==> r == jobs
  {
    if jobs == [] then []
    else (if jobs[0].id != id then [jobs[0]] else []) + WithoutId(jobs[1..], id)
  }

  function StripGroups(q: seq<Group>, id: string): seq<Group> {
    if q == [] then []
    else [q[0].(jobs := WithoutId(q[0].jobs, id))] + StripGroups(q[1..], id)
  }

  lemma {:induction false} StripStep(q: seq<Group>, i: nat, id: string)
    requires i <= |q|
    ensures i == |q| ==> StripGroups(q[i..], id) == []
    ensures i < |q| ==>
            StripGroups(q[i..], id) == [q[i].(jobs := WithoutId(q[i].jobs, id))] + StripGroups(q[i + 1..], id)
  {
    hide WithoutId;
    if i < |q| {
      assert q[i..][1..] == q[i + 1..];
    }
  }

  function DropEmpty(q: seq<Group>): seq<Group> {
    if q == [] then [] else (if q[0].jobs != [] then [q[0]] else []) + DropEmpty(q[1..])
  }

  function RemoveJob(q: seq<Group>, id: string): seq<Group> {
    DropEmpty(StripGroups(q, id))
  }

  /** `FairPriorityQueue`: the deque of groups, rotated in place. */
  class FairPriorityQueue {
    var groups: seq<Group>

    constructor ()
      ensures groups == []
    {
      groups := [];
    }

    method Push(job: Job)
      modifies this
      ensures groups == PushJob(old(groups), job)
    {
      var key := FairnessKey(job);
      var i := 0;
      while i < |groups|
        invariant 0 <= i <= |groups|
        invariant groups == old(groups)
        invariant forall k :: 0 <= k < i ==> groups[k].key != key
      {
        if groups[i].key == key {
          groups := groups[i := groups[i].(jobs := groups[i].jobs + [job])];
          return;
        }
        i := i + 1;
      }
      groups := groups + [Group(key, [job])];
    }

    method PopNext(eligible: Job -> bool) returns (popped: Option<Job>)
      modifies this
      ensures (popped, groups) == PopJob(old(groups), eligible)
    {
      var groupCount := |groups|;
      var tried := 0;
      while tried < groupCount
        invariant 0 <= tried <= groupCount == |old(groups)|
        invariant groups == old(groups)[tried..] + old(groups)[..tried]
        invariant forall k :: 0 <= k < tried ==> !HeadEligible(old(groups)[k], eligible)
      {
        var group := groups[0];
        assert group == old(groups)[tried];
        groups := groups[1..];
        assert groups == old(groups)[tried + 1..] + old(groups)[..tried];
        if group.jobs != [] && eligible(group.jobs[0]) {
          var job := group.jobs[0];
          group := group.(jobs := group.jobs[1..]);
          if group.jobs != [] {
            groups := groups + [group];
          } else {
            assert groups == groups + [];
          }
          FirstEligibleIs(old(groups), eligible, tried);
          return Some(job);
        }
        groups := groups + [group];
        tried := tried + 1;
      }
      FirstEligibleIs(old(groups), eligible, tried);
      assert groups == old(groups);
      return None;
    }

    method Remove(id: string)
      modifies this
      ensures groups == RemoveJob(old(groups), id)
    {
      hide StripGroups; hide WithoutId; hide DropEmpty;
      var i := 0;
      while i < |groups|
        invariant 0 <= i <= |groups| == |old(groups)|
        invariant groups[i..] == old(groups)[i..]
        invariant StripGroups(old(groups), id) == groups[..i] + StripGroups(old(groups)[i..], id)
      {
        StripStep(old(groups), i, id);
        assert groups[i] == groups[i..][0] == old(groups)[i..][0];
        groups := groups[i := groups[i].(jobs := WithoutId(groups[i].jobs, id))];
        assert groups[..i + 1] == groups[..i] + [groups[i]];
        assert groups[i + 1..] == old(groups)[i..][1..];
        i := i + 1;
      }
      StripStep(old(groups), i, id);
      assert groups == groups[..i] + [];
      groups := DropEmpty(groups);
    }
  }

  // ------------------------------------------------- structure of one queue

  function GroupIds(g: Group): set<string> {
    set i | 0 <= i < |g.jobs| :: g.jobs[i].id
  }

  /** A group is never empty, holds one key and one priority, and no id twice. */
  ghost predicate GroupOk(g: Group, priority: JobPriority) {
    && g.jobs != []
    && (forall i :: 0 <= i < |g.jobs| ==> FairnessKey(g.jobs[i]) == g.key && g.jobs[i].priority == priority)
    && DistinctIds(g.jobs)
  }

  ghost predicate Apart(g: Group, h: Group) {
    g.key != h.key && GroupIds(g) !! GroupIds(h)
  }

  ghost predicate PairwiseApart(q: seq<Group>) {
    forall a, b :: 0 <= a < b < |q| ==> Apart(q[a], q[b])
  }

  ghost predicate QueueOk(q: seq<Group>, priority: JobPriority) {
    && (forall a :: 0 <= a < |q| ==> GroupOk(q[a], priority))
    && PairwiseApart(q)
  }

  function Held(q: seq<Group>): set<Job> {
    set a, i | 0 <= a < |q| && 0 <= i < |q[a].jobs| :: q[a].jobs[i]
  }

  function HeldIds(q: seq<Group>): set<string> {
    set job | job in Held(q) :: job.id
  }

  lemma {:induction false} InHeld(q: seq<Group>, a: nat, i: nat)
    requires a < |q| && i < |q[a].jobs|
    ensures q[a].jobs[i] in Held(q) && q[a].jobs[i].id in HeldIds(q) && q[a].jobs[i].id in GroupIds(q[a])
  {
  }

  lemma {:induction false} GrowGroup(g: Group, job: Job)
    requires GroupOk(g, job.priority) && g.key == FairnessKey(job) && job.id !in GroupIds(g)
    ensures var h := g.(jobs := g.jobs + [job]); GroupOk(h, job.priority) && GroupIds(h) == GroupIds(g) + {job.id}
  {
    var h := g.(jobs := g.jobs + [job]);
    assert h.jobs[|g.jobs|] == job;
    forall k | 0 <= k < |g.jobs| ensures h.jobs[k].id != job.id && h.jobs[k].id in GroupIds(g) {
      assert g.jobs[k].id in GroupIds(g);
    }
    forall id | id in GroupIds(g) ensures id in GroupIds(h) {
      var k :| 0 <= k < |g.jobs| && g.jobs[k].id == id;
      assert h.jobs[k].id == id;
    }
  }

  lemma {:induction false} PushKeepsQueue(q: seq<Group>, job: Job)
    requires QueueOk(q, job.priority) && job.id !in HeldIds(q)
    ensures QueueOk(PushJob(q, job), job.priority)
    ensures Held(PushJob(q, job)) == Held(q) + {job}
  {
    var i := FindGroup(q, FairnessKey(job));
    var r := PushJob(q, job);
    forall a | 0 <= a < |q| ensures job.id !in GroupIds(q[a]) {
      forall k | 0 <= k < |q[a].jobs| ensures q[a].jobs[k].id != job.id {
        InHeld(q, a, k);
      }
    }
    PushHeld(q, job);
    hide Held; hide HeldIds;
    if i < |q| {
      GrowGroup(q[i], job);
      hide GroupIds; hide GroupOk;
    } else {
      assert r[|q|].jobs == [job];
      assert GroupIds(r[|q|]) == {job.id};
      assert r == q + [r[|q|]];
    }
  }

  lemma {:induction false} PushHeld(q: seq<Group>, job: Job)
    ensures Held(PushJob(q, job)) == Held(q) + {job}
  {
    var i := FindGroup(q, FairnessKey(job));
    var r := PushJob(q, job);
    forall j | j in Held(q) + {job} ensures j in Held(r) {
      if j == job {
        assert if i < |q| then r[i].jobs[|q[i].jobs|] == job else r[i].jobs[0] == job;
      } else {
        var a, k :| 0 <= a < |q| && 0 <= k < |q[a].jobs| && q[a].jobs[k] == j;
        assert r[a].jobs[k] == j;
      }
    }
    forall j | j in Held(r) ensures j in Held(q) + {job} {
      var a, k :| 0 <= a < |r| && 0 <= k < |r[a].jobs| && r[a].jobs[k] == j;
      if a < |q| && k < |q[a].jobs| {
        assert q[a].jobs[k] == j;
      }
    }
  }

  lemma {:induction false} PopKeepsQueue(q: seq<Group>, eligible: Job -> bool, priority: JobPriority)
    requires QueueOk(q, priority)
    ensures var (popped, r) := PopJob(q, eligible);
            && QueueOk(r, priority)
            && (popped.None? ==> r == q && forall a :: 0 <= a < |q| ==> !eligible(q[a].jobs[0]))
            && (popped.Some? ==> eligible(popped.value) && popped.value in Held(q)
                                 && popped.value.priority == priority
                                 && popped.value.id !in HeldIds(r) && Held(r) == Held(q) - {popped.value})
  {
    var i := FirstEligible(q, eligible);
    if i < |q| {
      InHeld(q, i, 0);
      ServeGroup(q, i, priority, PopJob(q, eligible).1);
      PopHeld(q, i, PopJob(q, eligible).1);
    } else {
      FirstEligibleIsFirst(q, eligible);
      forall a | 0 <= a < |q| ensures !eligible(q[a].jobs[0]) {
        assert GroupOk(q[a], priority);
        assert !HeadEligible(q[a], eligible);
      }
    }
  }

  lemma {:induction false} ServeGroup(q: seq<Group>, i: nat, priority: JobPriority, r: seq<Group>)
    requires QueueOk(q, priority) && i < |q| && r == q[i + 1..] + q[..i] + Rest(q[i])
    ensures QueueOk(r, priority)
    ensures forall a :: 0 <= a < |r| ==> q[i].jobs[0].id !in GroupIds(r[a])
  {
    var others := q[i + 1..] + q[..i];
    RestOfGroup(q[i], priority);
    assert q[i].jobs[0].id in GroupIds(q[i]);
    assert forall a :: 0 <= a < |q| - i - 1 ==> others[a] == q[a + i + 1];
    assert forall a :: |q| - i - 1 <= a < |others| ==> others[a] == q[a - (|q| - i - 1)];
    assert forall a :: 0 <= a < |others| ==> GroupOk(others[a], priority) && Apart(others[a], q[i]);
    forall a, b | 0 <= a < b < |others| ensures Apart(others[a], others[b]) {
      var k := |q| - i - 1;
      if b < k {
        assert Apart(q[a + i + 1], q[b + i + 1]);
      } else if a < k {
        assert Apart(q[b - k], q[a + i + 1]);
      } else {
        assert Apart(q[a - k], q[b - k]);
      }
    }
    assert forall a :: 0 <= a < |others| ==> r[a] == others[a];
    assert forall a :: |others| <= a < |r| ==> r[a] in Rest(q[i]);
  }

  lemma {:induction false} RestOfGroup(g: Group, priority: JobPriority)
    requires GroupOk(g, priority)
    ensures forall h :: h in Rest(g) ==> h.key == g.key && GroupOk(h, priority) && GroupIds(h) <= GroupIds(g)
    ensures forall h :: h in Rest(g) ==> g.jobs[0].id !in GroupIds(h)
  {
    if |g.jobs| > 1 {
      var h := g.(jobs := g.jobs[1..]);
      assert forall i :: 0 <= i < |h.jobs| ==> h.jobs[i] == g.jobs[i + 1];
    }
  }

  lemma {:induction false} PopHeld(q: seq<Group>, i: nat, r: seq<Group>)
    requires i < |q| && q[i].jobs != [] && r == q[i + 1..] + q[..i] + Rest(q[i])
    requires forall a :: 0 <= a < |r| ==> q[i].jobs[0].id !in GroupIds(r[a])
    ensures q[i].jobs[0].id !in HeldIds(r) && Held(r) == Held(q) - {q[i].jobs[0]}
  {
    var job, n := q[i].jobs[0], |q|;
    forall j | j in Held(r) ensures j in Held(q) && j.id != job.id {
      var a, k :| 0 <= a < |r| && 0 <= k < |r[a].jobs| && r[a].jobs[k] == j;
      assert j.id in GroupIds(r[a]);
      if a < n - 1 {
        var b := if a < n - i - 1 then a + i + 1 else a - (n - i - 1);
        assert r[a] == q[b];
        assert q[b].jobs[k] == j;
      } else {
        assert q[i].jobs[k + 1] == j;
      }
    }
    forall j | j in Held(q) && j != job ensures j in Held(r) {
      var b, k :| 0 <= b < |q| && 0 <= k < |q[b].jobs| && q[b].jobs[k] == j;
      if b == i {
        assert r[n - 1].jobs[k - 1] == j;
      } else {
        var a := if b > i then b - i - 1 else b + n - i - 1;
        assert r[a].jobs[k] == j;
      }
    }
  }

  lemma {:induction false} StripKeeps(q: seq<Group>, id: string)
    ensures |StripGroups(q, id)| == |q|
    ensures forall a :: 0 <= a < |q| ==> StripGroups(q, id)[a] == q[a].(jobs := WithoutId(q[a].jobs, id))
  {
    if q != [] {
      StripKeeps(q[1..], id);
    }
  }

  lemma {:induction false} WithoutIdDistinct(jobs: seq<Job>, id: string)
    requires DistinctIds(jobs)
    ensures DistinctIds(WithoutId(jobs, id))
  {
    if jobs != [] {
      WithoutIdDistinct(jobs[1..], id);
      forall j | j in WithoutId(jobs[1..], id) ensures j.id != jobs[0].id {
        var i :| 0 <= i < |jobs[1..]| && jobs[1..][i] == j;
        assert jobs[0].id != jobs[i + 1].id;
      }
    }
  }

  lemma {:induction false} StripKeepsGroup(g: Group, id: string, priority: JobPriority)
    requires GroupOk(g, priority)
    ensures var h := g.(jobs := WithoutId(g.jobs, id));
            (h.jobs != [] ==> GroupOk(h, priority)) && GroupIds(h) <= GroupIds(g)
  {
    var h := g.(jobs := WithoutId(g.jobs, id));
    WithoutIdDistinct(g.jobs, id);
    hide WithoutId;
    forall i | 0 <= i < |h.jobs|
      ensures h.jobs[i].id in GroupIds(g) && FairnessKey(h.jobs[i]) == g.key && h.jobs[i].priority == priority
    {
      assert h.jobs[i] in h.jobs;
      var k :| 0 <= k < |g.jobs| && g.jobs[k] == h.jobs[i];
    }
  }

  /** The groups that keep a job after one id is removed, in their old order. */
  lemma {:induction false} RemoveKeepsQueue(q: seq<Group>, id: string, priority: JobPriority)
    requires QueueOk(q, priority)
    ensures QueueOk(RemoveJob(q, id), priority)
    ensures Held(RemoveJob(q, id)) == set j | j in Held(q) && j.id != id
  {
    hide GroupOk; hide GroupIds; hide WithoutId; hide Held; hide StripGroups; hide DropEmpty;
    StripKeeps(q, id);
    var t := StripGroups(q, id);
    forall a | 0 <= a < |q| ensures (t[a].jobs != [] ==> GroupOk(t[a], priority)) && GroupIds(t[a]) <= GroupIds(q[a]) {
      StripKeepsGroup(q[a], id, priority);
    }
    forall a, b | 0 <= a < b < |t| ensures Apart(t[a], t[b]) {
      assert Apart(q[a], q[b]);
    }
    DropKeepsQueue(t, priority);
    forall j ensures j in Held(t) <==> j in Held(q) && j.id != id {
      StripHeld(q, id, j);
    }
  }

  lemma {:induction false} StripHeld(q: seq<Group>, id: string, j: Job)
    ensures j in Held(StripGroups(q, id)) <==> j in Held(q) && j.id != id
  {
    StripKeeps(q, id);
    var t := StripGroups(q, id);
    HeldInGroups(t, j);
    HeldInGroups(q, j);
    hide Held; hide StripGroups;
    if g :| g in t && j in g.jobs {
      var a :| 0 <= a < |t| && t[a] == g;
      assert q[a] in q && j in q[a].jobs;
    }
    if g :| g in q && j in g.jobs && j.id != id {
      var a :| 0 <= a < |q| && q[a] == g;
      assert t[a] in t && j in t[a].jobs;
    }
  }

  lemma {:induction false} DropKeepsQueue(t: seq<Group>, priority: JobPriority)
    requires forall a :: 0 <= a < |t| && t[a].jobs != [] ==> GroupOk(t[a], priority)
    requires PairwiseApart(t)
    ensures QueueOk(DropEmpty(t), priority) && Held(DropEmpty(t)) == Held(t)
  {
    DropKeepsGroups(t);
    var d := DropEmpty(t);
    forall a | 0 <= a < |d| ensures GroupOk(d[a], priority) {
      assert d[a] in d;
    }
    DropKeepsApart(t);
    forall j ensures j in Held(d) <==> j in Held(t) {
      HeldInGroups(d, j);
      HeldInGroups(t, j);
    }
  }

  lemma {:induction false} DropKeepsGroups(t: seq<Group>)
    ensures forall g :: g in DropEmpty(t) <==> g in t && g.jobs != []
  {
    if t != [] {
      DropKeepsGroups(t[1..]);
    }
  }

  lemma {:induction false} DropKeepsApart(t: seq<Group>)
    requires PairwiseApart(t)
    ensures PairwiseApart(DropEmpty(t))
  {
    if t != [] {
      var d, rest := DropEmpty(t), DropEmpty(t[1..]);
      hide Apart;
      DropKeepsApart(t[1..]);
      if t[0].jobs != [] {
        DropKeepsGroups(t[1..]);
        forall a | 0 <= a < |rest| ensures Apart(t[0], rest[a]) {
          assert rest[a] in t[1..];
        }
        assert d == [t[0]] + rest;
        assert forall a :: 0 < a < |d| ==> d[a] == rest[a - 1];
      }
    }
  }

  lemma {:induction false} HeldInGroups(q: seq<Group>, j: Job)
    ensures j in Held(q) <==> exists g :: g in q && j in g.jobs
  {
    if j in Held(q) {
      var a, k :| 0 <= a < |q| && 0 <= k < |q[a].jobs| && q[a].jobs[k] == j;
      assert q[a] in q && j in q[a].jobs;
    }
  }

  // ------------------------------------------------------ the three queues

  /** The state of `FairScheduler`. */
  datatype Sched = Sched(high: seq<Group>, normal: seq<Group>, low: seq<Group>, pending: set<string>, cursor: nat) {
    function Queue(priority: JobPriority): seq<Group> {
      match priority
      case High => high
      case Normal => normal
      case Low => low
    }

    function With(priority: JobPriority, q: seq<Group>): Sched {
      match priority
      case High => this.(high := q)
      case Normal => this.(normal := q)
      case Low => this.(low := q)
    }

    function Jobs(): set<Job> {
      Held(high) + Held(normal) + Held(low)
    }
  }

  const EMPTY_SCHED := Sched([], [], [], {}, 0)

  function RemoveId(s: Sched, id: string): Sched {
    Sched(RemoveJob(s.high, id), RemoveJob(s.normal, id), RemoveJob(s.low, id), s.pending - {id}, s.cursor)
  }

  function PushTo(s: Sched, job: Job): Sched {
    var t := if job.id in s.pending then RemoveId(s, job.id) else s;
    t.With(job.priority, PushJob(t.Queue(job.priority), job)).(pending := t.pending + {job.id})
  }

  /** The priority whose turn it is after `c` slots. */
  function SlotAt(c: nat): JobPriority {
    PRIORITY_SLOTS[c % 6]
  }

  predicate HasEligible(q: seq<Group>, eligible: Job -> bool) {
    FirstEligible(q, eligible) < |q|
  }

  predicate SlotEligible(s: Sched, eligible: Job -> bool, m: nat) {
    HasEligible(s.Queue(SlotAt(s.cursor + m)), eligible)
  }

  /** The first slot, counted from the cursor, that can be served; 6 when none can. */
  function FirstSlot(s: Sched, eligible: Job -> bool): (k: nat)
    ensures k <= 6
  {
    if SlotEligible(s, eligible, 0) then 0
    else if SlotEligible(s, eligible, 1) then 1
    else if SlotEligible(s, eligible, 2) then 2
    else if SlotEligible(s, eligible, 3) then 3
    else if SlotEligible(s, eligible, 4) then 4
    else if SlotEligible(s, eligible, 5) then 5
    else 6
  }

  /** Serving a slot takes the queue's job and leaves the cursor behind the slot. */
  function ServeSlot(s: Sched, eligible: Job -> bool, k: nat): (Option<Job>, Sched) {
    var priority := SlotAt(s.cursor + k);
    var (popped, q) := PopJob(s.Queue(priority), eligible);
    var pending := if popped.Some? then s.pending - {popped.value.id} else s.pending;
    (popped, s.With(priority, q).(pending := pending, cursor := (s.cursor + k + 1) % 6))
  }

  function PopFrom(s: Sched, eligible: Job -> bool): (Option<Job>, Sched) {
    var k := FirstSlot(s, eligible);
    if k == 6 then (None, s) else ServeSlot(s, eligible, k)
  }

  /** Every id is held once, in the queue of its priority, and `pending` lists them all. */
  ghost predicate SchedOk(s: Sched) {
    && s.cursor < 6
    && (forall p: JobPriority :: QueueOk(s.Queue(p), p))
    && (forall p: JobPriority, r: JobPriority :: p != r ==> HeldIds(s.Queue(p)) !! HeldIds(s.Queue(r)))
    && (forall id :: id in s.pending <==> exists p: JobPriority :: id in HeldIds(s.Queue(p)))
  }

  ghost predicate NoneEligible(s: Sched, eligible: Job -> bool, slots: nat) {
    forall m: nat :: m < slots ==> !SlotEligible(s, eligible, m)
  }

  lemma {:induction false} FirstSlotIsFirst(s: Sched, eligible: Job -> bool)
    ensures NoneEligible(s, eligible, FirstSlot(s, eligible))
    ensures FirstSlot(s, eligible) < 6 ==> SlotEligible(s, eligible, FirstSlot(s, eligible))
  {
    hide SlotEligible;
  }

  /** `FairScheduler`: each method's new state is a function of the old one. */
  class FairScheduler {
    const high: FairPriorityQueue
    const normal: FairPriorityQueue
    const low: FairPriorityQueue
    var pendingIds: set<string>
    var priorityCursor: nat

    ghost predicate Valid()
      reads this
    {
      && high != normal && normal != low && low != high
      && priorityCursor < 6
    }

    function View(): Sched
      reads this, high, normal, low
    {
      Sched(high.groups, normal.groups, low.groups, pendingIds, priorityCursor)
    }

    constructor ()
      ensures Valid() && fresh(high) && fresh(normal) && fresh(low) && View() == EMPTY_SCHED
    {
      var h := new FairPriorityQueue();
      var n := new FairPriorityQueue();
      var l := new FairPriorityQueue();
      high, normal, low := h, n, l;
      pendingIds, priorityCursor := {}, 0;
    }

    function QueueMut(priority: JobPriority): FairPriorityQueue {
      match priority
      case High => high
      case Normal => normal
      case Low => low
    }

    method Push(job: Job)
      requires Valid()
      modifies this, high, normal, low
      ensures Valid() && View() == PushTo(old(View()), job)
    {
      if job.id in pendingIds {
        Remove(job.id);
      }
      pendingIds := pendingIds + {job.id};
      QueueMut(job.priority).Push(job);
    }

    method PopNext(eligible: Job -> bool) returns (popped: Option<Job>)
      requires Valid()
      modifies this, high, normal, low
      ensures Valid() && (popped, View()) == PopFrom(old(View()), eligible)
    {
      hide ServeSlot; hide NoneEligible; hide FirstSlot; hide PopJob;
      ghost var start := View();
      NoneYet(start, eligible);
      for slot := 0 to 6
        invariant Valid()
        invariant View() == start.(cursor := (start.cursor + slot) % 6)
        invariant NoneEligible(start, eligible, slot)
      {
        popped := PopSlot(eligible);
        SlotShift(start.cursor, slot);
        if popped.Some? {
          SlotFound(start, eligible, slot);
          return;
        }
        SlotMissed(start, eligible, slot);
      }
      FirstSlotIs(start, eligible, 6);
      return None;
    }

    // One iteration of the loop in `pop_next`.
    method PopSlot(eligible: Job -> bool) returns (popped: Option<Job>)
      requires Valid()
      modifies this, high, normal, low
      ensures Valid() && (popped, View()) == ServeSlot(old(View()), eligible, 0)
    {
      var priority := SlotAt(priorityCursor);
      hide PopJob; hide SlotAt;
      priorityCursor := (priorityCursor + 1) % 6;
      match priority {
        case High => popped := high.PopNext(eligible);
        case Normal => popped := normal.PopNext(eligible);
        case Low => popped := low.PopNext(eligible);
      }
      if popped.Some? {
        pendingIds := pendingIds - {popped.value.id};
      }
    }

    method IsEmpty() returns (empty: bool)
      ensures empty == (View().pending == {})
    {
      return pendingIds == {};
    }

    method Remove(id: string)
      requires Valid()
      modifies this, high, normal, low
      ensures Valid() && View() == RemoveId(old(View()), id)
    {
      high.Remove(id);
      normal.Remove(id);
      low.Remove(id);
      pendingIds := pendingIds - {id};
    }
  }

  lemma {:induction false} FirstSlotIs(s: Sched, eligible: Job -> bool, k: nat)
    requires k <= 6 && NoneEligible(s, eligible, k) && (k < 6 ==> SlotEligible(s, eligible, k))
    ensures FirstSlot(s, eligible) == k
  {
    hide SlotEligible;
  }

  lemma {:induction false} NoneYet(s: Sched, eligible: Job -> bool)
    ensures NoneEligible(s, eligible, 0)
  {
  }

  lemma {:induction false} SlotFromCursor(s: Sched, eligible: Job -> bool, k: nat)
    ensures ServeSlot(s.(cursor := (s.cursor + k) % 6), eligible, 0) == ServeSlot(s, eligible, k)
    ensures SlotEligible(s, eligible, k) <==> ServeSlot(s, eligible, k).0.Some?
    ensures !SlotEligible(s, eligible, k) ==> ServeSlot(s, eligible, k).1 == s.(cursor := (s.cursor + k + 1) % 6)
  {
    SlotShift(s.cursor, k);
    hide SlotAt;
    assert (s.cursor + k) % 6 + 0 == (s.cursor + k) % 6;
    hide FirstEligible;
  }

  lemma {:induction false} SlotMissed(s: Sched, eligible: Job -> bool, k: nat)
    requires NoneEligible(s, eligible, k) && ServeSlot(s.(cursor := (s.cursor + k) % 6), eligible, 0).0.None?
    ensures NoneEligible(s, eligible, k + 1)
    ensures ServeSlot(s.(cursor := (s.cursor + k) % 6), eligible, 0).1 == s.(cursor := (s.cursor + k + 1) % 6)
  {
    SlotFromCursor(s, eligible, k);
    hide ServeSlot; hide SlotEligible;
  }

  lemma {:induction false} SlotFound(s: Sched, eligible: Job -> bool, k: nat)
    requires k < 6 && NoneEligible(s, eligible, k) && ServeSlot(s.(cursor := (s.cursor + k) % 6), eligible, 0).0.Some?
    ensures PopFrom(s, eligible) == ServeSlot(s.(cursor := (s.cursor + k) % 6), eligible, 0)
  {
    SlotFromCursor(s, eligible, k);
    hide ServeSlot; hide SlotEligible; hide FirstSlot; hide NoneEligible;
    FirstSlotIs(s, eligible, k);
  }

  lemma {:induction false} SlotShift(c: nat, m: nat)
    ensures SlotAt((c + m) % 6) == SlotAt(c + m) && ((c + m) % 6 + 1) % 6 == (c + m + 1) % 6
  {
  }

  // ---------------------------------------------------- structure preserved

  lemma {:induction false} JobsByQueue(s: Sched, j: Job)
    ensures j in s.Jobs() <==> exists p: JobPriority :: j in Held(s.Queue(p))
  {
    if j in s.Jobs() {
      assert j in Held(s.Queue(High)) || j in Held(s.Queue(Normal)) || j in Held(s.Queue(Low));
    }
  }

  lemma {:induction false} PendingIds(s: Sched, j: Job)
    requires SchedOk(s) && j in s.Jobs()
    ensures j.id in s.pending
  {
    hide QueueOk;
    JobsByQueue(s, j);
    hide Sched.Jobs;
    var p: JobPriority :| j in Held(s.Queue(p));
    assert j.id in HeldIds(s.Queue(p));
  }

  lemma {:induction false} WithQueue(s: Sched, p: JobPriority, q: seq<Group>)
    ensures s.With(p, q).Queue(p) == q
    ensures forall r: JobPriority :: r != p ==> s.With(p, q).Queue(r) == s.Queue(r)
    ensures s.With(p, q).pending == s.pending && s.With(p, q).cursor == s.cursor
  {
  }

  lemma {:induction false} IdsWithout(q: seq<Group>, r: seq<Group>, id: string)
    requires Held(r) == set j | j in Held(q) && j.id != id
    ensures HeldIds(r) == HeldIds(q) - {id}
  {
    hide Held;
    assert forall j :: j in Held(r) <==> j in Held(q) && j.id != id;
  }

  lemma {:induction false} IdsWith(q: seq<Group>, r: seq<Group>, job: Job)
    requires Held(r) == Held(q) + {job}
    ensures HeldIds(r) == HeldIds(q) + {job.id}
  {
    hide Held;
    assert job in Held(r);
  }

  lemma {:induction false} RemoveFromQueue(s: Sched, id: string, p: JobPriority)
    requires QueueOk(s.Queue(p), p)
    ensures QueueOk(RemoveId(s, id).Queue(p), p)
    ensures HeldIds(RemoveId(s, id).Queue(p)) == HeldIds(s.Queue(p)) - {id}
    ensures Held(RemoveId(s, id).Queue(p)) == set j | j in Held(s.Queue(p)) && j.id != id
  {
    RemoveKeepsQueue(s.Queue(p), id, p);
    hide QueueOk; hide RemoveJob;
    IdsWithout(s.Queue(p), RemoveJob(s.Queue(p), id), id);
  }

  lemma {:induction false} RemoveKeepsSched(s: Sched, id: string)
    requires SchedOk(s)
    ensures SchedOk(RemoveId(s, id))
    ensures RemoveId(s, id).pending == s.pending - {id}
    ensures RemoveId(s, id).Jobs() == set j | j in s.Jobs() && j.id != id
  {
    hide QueueOk; hide RemoveJob; hide Held; hide HeldIds; hide Sched.Jobs;
    var t := RemoveId(s, id);
    assert t.pending == s.pending - {id};
    forall p: JobPriority
      ensures QueueOk(t.Queue(p), p) && HeldIds(t.Queue(p)) == HeldIds(s.Queue(p)) - {id}
    {
      RemoveFromQueue(s, id, p);
    }
    assert t.cursor == s.cursor;
    RemoveJobs(s, id);
    hide RemoveId; hide Sched.Queue;
    forall x ensures x in t.pending <==> exists p: JobPriority :: x in HeldIds(t.Queue(p)) {
    }
  }

  lemma {:induction false} RemoveJobs(s: Sched, id: string)
    requires SchedOk(s)
    ensures RemoveId(s, id).Jobs() == set j | j in s.Jobs() && j.id != id
  {
    hide QueueOk; hide RemoveJob; hide Held; hide HeldIds;
    RemoveFromQueue(s, id, High);
    RemoveFromQueue(s, id, Normal);
    RemoveFromQueue(s, id, Low);
  }

  /** Pushing replaces any older snapshot of the job and adds this one. */
  lemma {:induction false} PushKeepsSched(s: Sched, job: Job)
    requires SchedOk(s)
    ensures SchedOk(PushTo(s, job))
    ensures PushTo(s, job).pending == s.pending + {job.id}
    ensures PushTo(s, job).Jobs() == (set j | j in s.Jobs() && j.id != job.id) + {job}
  {
    var t := if job.id in s.pending then RemoveId(s, job.id) else s;
    AddJob(t, job);
    hide SchedOk; hide PushJob; hide RemoveId; hide Sched.Jobs; hide Sched.With; hide Sched.Queue;
    RemoveKeepsSched(s, job.id);
    forall j | j in s.Jobs() ensures j.id in s.pending {
      PendingIds(s, j);
    }
    assert t.Jobs() == set j | j in s.Jobs() && j.id != job.id;
    AddKeepsSched(t, job);
  }

  lemma {:induction false} AddJob(t: Sched, job: Job)
    ensures t.With(job.priority, PushJob(t.Queue(job.priority), job)).pending == t.pending
  {
    hide PushJob;
  }

  lemma {:induction false} AddKeepsSched(t: Sched, job: Job)
    requires SchedOk(t) && job.id !in t.pending
    ensures var u := t.With(job.priority, PushJob(t.Queue(job.priority), job)).(pending := t.pending + {job.id});
            SchedOk(u) && u.Jobs() == t.Jobs() + {job}
  {
    hide QueueOk; hide PushJob; hide Held; hide HeldIds; hide Sched.Jobs;
    var p := job.priority;
    var q := PushJob(t.Queue(p), job);
    var u := t.With(p, q).(pending := t.pending + {job.id});
    WithQueue(t, p, q);
    assert forall r: JobPriority :: u.Queue(r) == t.With(p, q).Queue(r);
    PushKeepsQueue(t.Queue(p), job);
    IdsWith(t.Queue(p), q, job);
    hide Sched.Queue; hide Sched.With;
    forall j ensures j in u.Jobs() <==> j in t.Jobs() || j == job {
      JobsByQueue(u, j);
      JobsByQueue(t, j);
    }
    forall x ensures x in u.pending <==> exists r: JobPriority :: x in HeldIds(u.Queue(r)) {
      assert x in HeldIds(u.Queue(p)) <==> x in HeldIds(t.Queue(p)) || x == job.id;
    }
  }

  ghost predicate NoHeadEligible(s: Sched, eligible: Job -> bool) {
    forall p: JobPriority, a :: 0 <= a < |s.Queue(p)| ==> !HeadEligible(s.Queue(p)[a], eligible)
  }

  /** The scheduler's structure survives a pop; the popped job leaves for good,
      and None means that no group head may run and nothing moved. */
  lemma {:induction false} PopKeepsSched(s: Sched, eligible: Job -> bool)
    requires SchedOk(s)
    ensures var popped, t := PopFrom(s, eligible).0, PopFrom(s, eligible).1;
            && SchedOk(t)
            && (popped.None? ==> t == s && NoHeadEligible(s, eligible))
            && (popped.Some? ==> eligible(popped.value) && popped.value in s.Jobs() && popped.value.id in s.pending
                                 && t.pending == s.pending - {popped.value.id}
                                 && t.Jobs() == s.Jobs() - {popped.value})
  {
    hide FirstSlot; hide SlotEligible; hide ServeSlot; hide NoneEligible; hide Sched.Jobs; hide QueueOk; hide HeldIds;
    FirstSlotIsFirst(s, eligible);
    var k := FirstSlot(s, eligible);
    if k < 6 {
      SlotKeepsSched(s, eligible, k);
    } else {
      NoSlotEligible(s, eligible);
    }
  }

  lemma {:induction false} ServedSlot(s: Sched, eligible: Job -> bool, k: nat)
    ensures var popped, t, p := ServeSlot(s, eligible, k).0, ServeSlot(s, eligible, k).1, SlotAt(s.cursor + k);
            && t.cursor == (s.cursor + k + 1) % 6
            && t.pending == (if popped.Some? then s.pending - {popped.value.id} else s.pending)
            && PopJob(s.Queue(p), eligible) == (popped, t.Queue(p))
            && (forall r: JobPriority :: r != p ==> t.Queue(r) == s.Queue(r))
  {
    hide PopJob; hide SlotAt;
  }

  lemma {:induction false} SlotKeepsSched(s: Sched, eligible: Job -> bool, k: nat)
    requires SchedOk(s) && SlotEligible(s, eligible, k)
    ensures var popped, t := ServeSlot(s, eligible, k).0, ServeSlot(s, eligible, k).1;
            && popped.Some? && SchedOk(t) && eligible(popped.value)
            && popped.value.priority == SlotAt(s.cursor + k)
            && popped.value in s.Jobs() && popped.value.id in s.pending
            && t.pending == s.pending - {popped.value.id} && t.Jobs() == s.Jobs() - {popped.value}
  {
    hide QueueOk; hide SlotAt; hide Held; hide HeldIds; hide FirstEligible; hide Sched.Jobs;
    var p := SlotAt(s.cursor + k);
    PopKeepsQueue(s.Queue(p), eligible, p);
    assert PopJob(s.Queue(p), eligible).0.Some?;
    ServedSlot(s, eligible, k);
    hide PopJob; hide ServeSlot; hide HasEligible;
    ServedKeepsSched(s, p, ServeSlot(s, eligible, k).0.value, ServeSlot(s, eligible, k).1);
  }

  lemma {:induction false} ServedKeepsSched(s: Sched, p: JobPriority, job: Job, t: Sched)
    requires SchedOk(s) && t.cursor < 6 && t.pending == s.pending - {job.id}
    requires forall r: JobPriority :: r != p ==> t.Queue(r) == s.Queue(r)
    requires QueueOk(t.Queue(p), p) && job in Held(s.Queue(p))
    requires Held(t.Queue(p)) == Held(s.Queue(p)) - {job} && job.id !in HeldIds(t.Queue(p))
    ensures SchedOk(t) && job in s.Jobs() && job.id in s.pending && t.Jobs() == s.Jobs() - {job}
  {
    hide QueueOk; hide Held; hide Sched.Jobs; hide Sched.Queue;
    assert job.id in HeldIds(s.Queue(p));
    assert HeldIds(t.Queue(p)) == HeldIds(s.Queue(p)) - {job.id} by {
      forall id | id in HeldIds(s.Queue(p)) && id != job.id ensures id in HeldIds(t.Queue(p)) {
        var j :| j in Held(s.Queue(p)) && j.id == id;
        assert j in Held(t.Queue(p));
      }
    }
    forall r: JobPriority | r != p ensures job !in Held(s.Queue(r)) {
      assert job.id !in HeldIds(s.Queue(r));
    }
    hide HeldIds;
    forall j ensures j in t.Jobs() <==> j in s.Jobs() && j != job {
      JobsByQueue(s, j);
      JobsByQueue(t, j);
    }
    JobsByQueue(s, job);
    forall x ensures x in t.pending <==> exists r: JobPriority :: x in HeldIds(t.Queue(r)) {
      assert x in HeldIds(t.Queue(p)) <==> x in HeldIds(s.Queue(p)) && x != job.id;
    }
  }

  lemma {:induction false} NoSlotEligible(s: Sched, eligible: Job -> bool)
    requires s.cursor < 6 && NoneEligible(s, eligible, 6)
    ensures NoHeadEligible(s, eligible)
  {
    forall p: JobPriority, a | 0 <= a < |s.Queue(p)| ensures !HeadEligible(s.Queue(p)[a], eligible) {
      var slot := match p case High => 0 case Normal => 1 case Low => 3;
      var k := (slot + 6 - s.cursor) % 6;
      assert (s.cursor + k) % 6 == slot;
      assert SlotAt(s.cursor + k) == p;
      assert !SlotEligible(s, eligible, k);
      FirstEligibleIsFirst(s.Queue(p), eligible);
    }
  }
}
