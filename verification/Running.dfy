/** `JobConcurrencyLimits` and `RunningJobs` of `src/jobs/scheduler.rs`: counters
    kept beside the set of running tasks, and the layered admission test. */
module Running {
  import opened Options
  import opened JobModel

  datatype Limits = Limits(global: nat, transfer: nat, metadata: nat, push: nat) {
    function Of(class_: JobClass): nat {
      match class_
      case Transfer => transfer
      case Metadata => metadata
      case Push => push
    }
  }

  function Clamp(x: int, lo: int, hi: int): int {
    if x < lo then lo else if x > hi then hi else x
  }

  /** The limit is the setting, or the nearest number from one to the global limit. */
  predicate Bounds(limit: nat, setting: nat, global: nat) {
    || (limit == setting && 1 <= setting <= global)
    || (limit == 1 && setting == 0)
    || (limit == global && setting > global)
  }

  function FromSettings(global: nat, transfer: nat, metadata: nat, push: nat): (limits: Limits)
    ensures limits.global >= 1 && forall c: JobClass :: 1 <= limits.Of(c) <= limits.global
    ensures limits.global == global || (global == 0 && limits.global == 1)
    ensures Bounds(limits.transfer, transfer, limits.global) && Bounds(limits.metadata, metadata, limits.global)
    ensures Bounds(limits.push, push, limits.global)
  {
    var g := if global < 1 then 1 else global;
    Limits(g, Clamp(transfer, 1, g), Clamp(metadata, 1, g), Clamp(push, 1, g))
  }

  datatype Counters = Counters(total: nat, byClass: map<JobClass, nat>, subscriptions: map<string, nat>, bulk: nat)

  const NOTHING_RUNNING := Counters(0, map[], map[], 0)

  function Increment<K>(counts: map<K, nat>, key: K): map<K, nat> {
    counts[key := (if key in counts then counts[key] else 0) + 1]
  }

  function Decrement<K>(counts: map<K, nat>, key: K): map<K, nat> {
    if key !in counts then counts
    else if counts[key] <= 1 then counts - {key}
    else counts[key := counts[key] - 1]
  }

  predicate CanStart(r: Counters, job: Job, limits: Limits) {
    && r.total < limits.global
    && (if ClassOf(job) in r.byClass then r.byClass[ClassOf(job)] else 0) < limits.Of(ClassOf(job))
    && if IsBulk(job) then r.bulk == 0 && r.subscriptions == map[]
       else r.bulk == 0 && (SubscriptionOf(job).Some? ==> SubscriptionOf(job).value !in r.subscriptions)
  }

  function Start(r: Counters, job: Job): Counters {
    Counters(
      r.total + 1,
      Increment(r.byClass, ClassOf(job)),
      if SubscriptionOf(job).Some? then Increment(r.subscriptions, SubscriptionOf(job).value) else r.subscriptions,
      if IsBulk(job) then r.bulk + 1 else r.bulk)
  }

  function Finish(r: Counters, job: Job): Counters {
    Counters(
      if r.total == 0 then 0 else r.total - 1,
      Decrement(r.byClass, ClassOf(job)),
      if SubscriptionOf(job).Some? then Decrement(r.subscriptions, SubscriptionOf(job).value) else r.subscriptions,
      if IsBulk(job) && r.bulk > 0 then r.bulk - 1 else r.bulk)
  }

  class RunningJobs {
    var total: nat
    var byClass: map<JobClass, nat>
    var subscriptions: map<string, nat>
    var allSubscriptions: nat

    function View(): Counters
      reads this
    {
      Counters(total, byClass, subscriptions, allSubscriptions)
    }

    constructor ()
      ensures View() == NOTHING_RUNNING
    {
      total, byClass, subscriptions, allSubscriptions := 0, map[], map[], 0;
    }

    method MayStart(job: Job, limits: Limits) returns (can: bool)
      ensures can == CanStart(View(), job, limits)
    {
      if total >= limits.global
         || (if ClassOf(job) in byClass then byClass[ClassOf(job)] else 0) >= limits.Of(ClassOf(job)) {
        return false;
      }
      if IsBulk(job) {
        return allSubscriptions == 0 && subscriptions == map[];
      }
      if allSubscriptions > 0 {
        return false;
      }
      return SubscriptionOf(job).None? || SubscriptionOf(job).value !in subscriptions;
    }

    method Started(job: Job)
      modifies this
      ensures View() == Start(old(View()), job)
    {
      total := total + 1;
      byClass := Increment(byClass, ClassOf(job));
      if IsBulk(job) {
        allSubscriptions := allSubscriptions + 1;
      }
      if SubscriptionOf(job).Some? {
        subscriptions := Increment(subscriptions, SubscriptionOf(job).value);
      }
    }

    method Finished(job: Job)
      modifies this
      ensures View() == Finish(old(View()), job)
    {
      total := if total == 0 then 0 else total - 1;
      byClass := Decrement(byClass, ClassOf(job));
      if IsBulk(job) {
        allSubscriptions := if allSubscriptions == 0 then 0 else allSubscriptions - 1;
      }
      if SubscriptionOf(job).Some? {
        subscriptions := Decrement(subscriptions, SubscriptionOf(job).value);
      }
    }
  }

  // ------------------------------------------- counters against the tasks

  function CountClass(tasks: seq<Job>, c: JobClass): nat {
    if tasks == [] then 0 else (if ClassOf(tasks[0]) == c then 1 else 0) + CountClass(tasks[1..], c)
  }

  function CountSubscription(tasks: seq<Job>, id: string): nat {
    if tasks == [] then 0
    else (if SubscriptionOf(tasks[0]) == Some(id) then 1 else 0) + CountSubscription(tasks[1..], id)
  }

  function CountBulk(tasks: seq<Job>): nat {
    if tasks == [] then 0 else (if IsBulk(tasks[0]) then 1 else 0) + CountBulk(tasks[1..])
  }

  ghost predicate CountsOf<K(!new)>(m: map<K, nat>, count: K -> nat) {
    forall k :: (k in m <==> count(k) > 0) && (k in m ==> m[k] == count(k))
  }

  /** The counters are those of exactly these tasks; zero counts are not kept. */
  ghost predicate Reflects(r: Counters, tasks: seq<Job>) {
    && r.total == |tasks|
    && CountsOf(r.byClass, c => CountClass(tasks, c))
    && CountsOf(r.subscriptions, id => CountSubscription(tasks, id))
    && r.bulk == CountBulk(tasks)
  }

  lemma {:induction false} CountsSplit(a: seq<Job>, b: seq<Job>)
    ensures forall c :: CountClass(a + b, c) == CountClass(a, c) + CountClass(b, c)
    ensures forall id :: CountSubscription(a + b, id) == CountSubscription(a, id) + CountSubscription(b, id)
    ensures CountBulk(a + b) == CountBulk(a) + CountBulk(b)
  {
    if a == [] {
      assert a + b == b;
    } else {
      CountsSplit(a[1..], b);
      assert (a + b)[1..] == a[1..] + b;
    }
  }

  lemma {:induction false} CountsOne(job: Job)
    ensures forall c :: CountClass([job], c) == if ClassOf(job) == c then 1 else 0
    ensures forall id :: CountSubscription([job], id) == if SubscriptionOf(job) == Some(id) then 1 else 0
    ensures CountBulk([job]) == if IsBulk(job) then 1 else 0
  {
  }

  lemma {:induction false} StartReflects(r: Counters, tasks: seq<Job>, job: Job)
    requires Reflects(r, tasks)
    ensures Reflects(Start(r, job), tasks + [job])
  {
    CountsSplit(tasks, [job]);
    CountsOne(job);
  }

  function Without(tasks: seq<Job>, i: nat): seq<Job>
    requires i < |tasks|
  {
    tasks[..i] + tasks[i + 1..]
  }

  lemma {:induction false} DecrementCounts<K(!new)>(m: map<K, nat>, key: K, before: K -> nat, after: K -> nat)
    requires CountsOf(m, before) && forall k :: before(k) == after(k) + if k == key then 1 else 0
    ensures CountsOf(Decrement(m, key), after)
  {
  }

  lemma {:induction false} SameCounts<K(!new)>(m: map<K, nat>, before: K -> nat, after: K -> nat)
    requires CountsOf(m, before) && forall k :: before(k) == after(k)
    ensures CountsOf(m, after)
  {
  }

  lemma {:induction false} CountsWithout(tasks: seq<Job>, i: nat)
    requires i < |tasks|
    ensures forall c ::
              CountClass(tasks, c) == CountClass(Without(tasks, i), c) + if ClassOf(tasks[i]) == c then 1 else 0
    ensures forall id ::
              CountSubscription(tasks, id)
              == CountSubscription(Without(tasks, i), id) + if SubscriptionOf(tasks[i]) == Some(id) then 1 else 0
    ensures CountBulk(tasks) == CountBulk(Without(tasks, i)) + if IsBulk(tasks[i]) then 1 else 0
  {
    assert tasks == tasks[..i] + ([tasks[i]] + tasks[i + 1..]);
    CountsSplit(tasks[..i], [tasks[i]] + tasks[i + 1..]);
    CountsSplit([tasks[i]], tasks[i + 1..]);
    CountsSplit(tasks[..i], tasks[i + 1..]);
    CountsOne(tasks[i]);
    hide CountClass; hide CountSubscription; hide CountBulk;
  }

  lemma {:induction false} FinishReflects(r: Counters, tasks: seq<Job>, i: nat)
    requires Reflects(r, tasks) && i < |tasks|
    ensures Reflects(Finish(r, tasks[i]), Without(tasks, i))
  {
    var job, rest := tasks[i], Without(tasks, i);
    CountsWithout(tasks, i);
    hide CountClass; hide CountSubscription; hide CountBulk; hide CountsOf; hide Decrement; hide ClassOf;
    DecrementCounts(r.byClass, ClassOf(job), c => CountClass(tasks, c), c => CountClass(rest, c));
    if SubscriptionOf(job).Some? {
      DecrementCounts(r.subscriptions, SubscriptionOf(job).value, id => CountSubscription(tasks, id),
        id => CountSubscription(rest, id));
    } else {
      SameCounts(r.subscriptions, id => CountSubscription(tasks, id), id => CountSubscription(rest, id));
    }
  }

  lemma {:induction false} CountsAreMembership(tasks: seq<Job>)
    ensures forall id :: CountSubscription(tasks, id) > 0 <==> exists t :: t in tasks && SubscriptionOf(t) == Some(id)
    ensures CountBulk(tasks) > 0 <==> exists t :: t in tasks && IsBulk(t)
  {
    if tasks != [] {
      CountsAreMembership(tasks[1..]);
      assert forall t :: t in tasks <==> t == tasks[0] || t in tasks[1..];
    }
  }

  function CountKind(tasks: seq<Job>, k: JobKind): nat {
    if tasks == [] then 0 else (if tasks[0].kind == k then 1 else 0) + CountKind(tasks[1..], k)
  }

  /** There is room for one more job of this kind: both kinds of transfer share a limit. */
  predicate HasRoomFor(tasks: seq<Job>, k: JobKind, limits: Limits) {
    && |tasks| < limits.global
    && match k
       case MetadataScrape => CountKind(tasks, MetadataScrape) < limits.metadata
       case PushDispatch => CountKind(tasks, PushDispatch) < limits.push
       case _ => CountKind(tasks, ManualTransfer) + CountKind(tasks, SubscriptionTransfer) < limits.transfer
  }

  lemma {:induction false} ClassesAreKinds(tasks: seq<Job>)
    ensures CountClass(tasks, Transfer) == CountKind(tasks, ManualTransfer) + CountKind(tasks, SubscriptionTransfer)
    ensures CountClass(tasks, Metadata) == CountKind(tasks, MetadataScrape)
    ensures CountClass(tasks, Push) == CountKind(tasks, PushDispatch)
  {
    if tasks != [] {
      ClassesAreKinds(tasks[1..]);
    }
  }

  /** Admission in the words of the jobs: room for the kind; no scrape of all subscriptions
      running; and, manual transfers apart, which occupy none, nobody on a subscription the
      job would touch. */
  lemma {:induction false} AdmittedIff(r: Counters, tasks: seq<Job>, job: Job, limits: Limits)
    requires Reflects(r, tasks)
    ensures CanStart(r, job, limits) <==>
            && HasRoomFor(tasks, job.kind, limits)
            && (forall t :: t in tasks && t.kind.MetadataScrape? ==> t.payload.subscription.Some?)
            && (forall t :: t in tasks && !t.kind.ManualTransfer? && t.payload.subscription.Some? ==>
                  job.kind.ManualTransfer?
                  || (job.payload.subscription != t.payload.subscription
                      && !(job.kind.MetadataScrape? && job.payload.subscription.None?)))
  {
    CanStartMeans(r, tasks, job, limits);
    ClassesAreKinds(tasks);
    hide CanStart; hide Reflects; hide CountClass; hide CountKind;
  }

  /** Tasks that keep apart, in the words of the jobs. */
  lemma {:induction false} ExclusiveIff(tasks: seq<Job>)
    ensures Exclusive(tasks) <==>
            forall i, j ::
              0 <= i < |tasks| && 0 <= j < |tasks| && i != j
              && !tasks[i].kind.ManualTransfer? && !tasks[j].kind.ManualTransfer? ==>
                && (tasks[i].payload.subscription.Some? ==>
                   tasks[i].payload.subscription != tasks[j].payload.subscription)
                && (tasks[i].kind.MetadataScrape? && tasks[i].payload.subscription.None? ==>
                      tasks[j].payload.subscription.None? && !tasks[j].kind.MetadataScrape?)
  {
    forall i, j | 0 <= i < |tasks| && 0 <= j < |tasks|
      ensures Compatible(tasks[i], tasks[j]) <==>
                !tasks[i].kind.ManualTransfer? && !tasks[j].kind.ManualTransfer? ==>
                  && (tasks[i].payload.subscription.Some? ==>
                        tasks[i].payload.subscription != tasks[j].payload.subscription)
                  && (tasks[i].kind.MetadataScrape? && tasks[i].payload.subscription.None? ==>
                        tasks[j].payload.subscription.None? && !tasks[j].kind.MetadataScrape?)
    {
    }
    hide Compatible;
  }

  /** Admission, said of the tasks themselves: below both limits, no bulk scrape
      running, and no running task on a subscription this job would touch. */
  lemma {:induction false} CanStartMeans(r: Counters, tasks: seq<Job>, job: Job, limits: Limits)
    requires Reflects(r, tasks)
    ensures CanStart(r, job, limits) <==>
            && |tasks| < limits.global
            && CountClass(tasks, ClassOf(job)) < limits.Of(ClassOf(job))
            && (forall t :: t in tasks ==> !IsBulk(t))
            && (IsBulk(job) ==> forall t :: t in tasks ==> SubscriptionOf(t).None?)
            && (forall t :: t in tasks && SubscriptionOf(job).Some? ==> SubscriptionOf(t) != SubscriptionOf(job))
  {
    CountsAreMembership(tasks);
    hide CountSubscription; hide CountBulk; hide CountClass;
    if r.subscriptions != map[] {
      var id :| id in r.subscriptions;
      assert exists t :: t in tasks && SubscriptionOf(t) == Some(id);
    }
    if t :| t in tasks && SubscriptionOf(t).Some? {
      assert SubscriptionOf(t) == Some(SubscriptionOf(t).value);
      assert SubscriptionOf(t).value in r.subscriptions;
    }
  }

  /** No two tasks share a subscription, and a bulk scrape shares with none. */
  ghost predicate Exclusive(tasks: seq<Job>) {
    forall i, j :: 0 <= i < |tasks| && 0 <= j < |tasks| && i != j ==> Compatible(tasks[i], tasks[j])
  }

  ghost predicate Compatible(a: Job, b: Job) {
    && (SubscriptionOf(a).Some? ==> SubscriptionOf(a) != SubscriptionOf(b))
    && (IsBulk(a) ==> SubscriptionOf(b).None? && !IsBulk(b))
  }

  lemma {:induction false} StartKeepsExclusive(r: Counters, tasks: seq<Job>, job: Job, limits: Limits)
    requires Reflects(r, tasks) && Exclusive(tasks) && CanStart(r, job, limits)
    ensures Exclusive(tasks + [job])
    ensures |tasks + [job]| <= limits.global
    ensures CountClass(tasks + [job], ClassOf(job)) <= limits.Of(ClassOf(job))
  {
    CanStartMeans(r, tasks, job, limits);
    CountsSplit(tasks, [job]);
    CountsOne(job);
    hide CountClass; hide CanStart; hide Reflects;
    var all := tasks + [job];
    forall i, j | 0 <= i < |all| && 0 <= j < |all| && i != j ensures Compatible(all[i], all[j]) {
      if i < |tasks| && j < |tasks| {
        assert Compatible(tasks[i], tasks[j]);
      } else if i < |tasks| {
        assert tasks[i] in tasks;
      } else {
        assert tasks[j] in tasks;
      }
    }
  }

  lemma {:induction false} FinishKeepsExclusive(tasks: seq<Job>, i: nat)
    requires Exclusive(tasks) && i < |tasks|
    ensures Exclusive(Without(tasks, i))
  {
    var rest := Without(tasks, i);
    hide Compatible;
    forall a, b | 0 <= a < |rest| && 0 <= b < |rest| && a != b ensures Compatible(rest[a], rest[b]) {
      var x, y := if a < i then a else a + 1, if b < i then b else b + 1;
      assert Compatible(tasks[x], tasks[y]);
    }
  }
}
