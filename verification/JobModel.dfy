/** The job record of `src/jobs/model.rs`, without its display texts, and the
    outcome of one atomic file write. */
module JobModel {
  import opened Options

  datatype JobStatus = Queued | Running | Succeeded | Failed | Canceled

  datatype JobKind = ManualTransfer | SubscriptionTransfer | MetadataScrape | PushDispatch {
    // Transfers have side effects on the cloud drive and are never retried by the program.
    predicate SupportsAutomaticRetry() {
      !ManualTransfer? && !SubscriptionTransfer?
    }

    function Name(): string {
      match this
      case ManualTransfer => "ManualTransfer"
      case SubscriptionTransfer => "SubscriptionTransfer"
      case MetadataScrape => "MetadataScrape"
      case PushDispatch => "PushDispatch"
    }
  }

  datatype JobPriority = High | Normal | Low

  datatype JobErrorClass =
    | RateLimited | Transient | Authentication | Validation
    | NotFound | Permanent | Internal | TimedOut

  /** A JSON payload: its text, and the subscription id found when it is decoded
      as the payload type of the job's kind (None when absent or undecodable). */
  datatype Payload = Payload(text: string, subscription: Option<string>)

  datatype Job = Job(
    id: string,
    kind: JobKind,
    priority: JobPriority,
    attempt: nat,
    nextAttemptAt: Option<int>,
    errorClass: Option<JobErrorClass>,
    status: JobStatus,
    progress: nat,
    payload: Payload,
    key: Option<string>,
    createdAt: int,
    updatedAt: int,
    startedAt: Option<int>,
    finishedAt: Option<int>)

  datatype JobClass = Transfer | Metadata | Push

  const MAX_AUTO_ATTEMPTS: nat := 3

  predicate IsTransfer(kind: JobKind) {
    !kind.SupportsAutomaticRetry()
  }

  predicate IsTerminal(job: Job) {
    job.status.Succeeded? || job.status.Failed? || job.status.Canceled?
  }

  predicate IsLive(job: Job) {
    job.status.Queued? || job.status.Running?
  }

  function ClassOf(job: Job): JobClass {
    match job.kind
    case ManualTransfer => Transfer
    case SubscriptionTransfer => Transfer
    case MetadataScrape => Metadata
    case PushDispatch => Push
  }

  /** The subscription a running job occupies. */
  function SubscriptionOf(job: Job): Option<string> {
    if job.kind.ManualTransfer? then None else job.payload.subscription
  }

  /** A metadata scrape without a subscription works on all of them. */
  predicate IsBulk(job: Job) {
    job.kind.MetadataScrape? && job.payload.subscription.None?
  }

  /** The idempotency key before hashing. */
  function KeyOf(kind: JobKind, payload: Payload): string {
    kind.Name() + ":" + payload.text
  }

  lemma {:induction false} NameIsPlain(k: JobKind)
    ensures ':' !in k.Name()
  {
  }

  lemma {:induction false} NameIsInjective(k1: JobKind, k2: JobKind)
    requires k1.Name() == k2.Name()
    ensures k1 == k2
  {
    assert |k1.Name()| == |k2.Name()| && k1.Name()[0] == k2.Name()[0];
  }

  lemma {:induction false} SplitAtColon(a: string, x: string, b: string, y: string)
    requires ':' !in a && ':' !in b && a + ":" + x == b + ":" + y
    ensures a == b && x == y
  {
    var s := a + ":" + x;
    assert s[|a|] == ':' && s[|b|] == ':';
    assert forall i :: 0 <= i < |a| ==> s[i] == a[i] && a[i] in a;
    assert forall i :: 0 <= i < |b| ==> s[i] == b[i] && b[i] in b;
    assert |a| == |b|;
    assert s[..|a|] == a && s[..|b|] == b;
    assert s[|a| + 1..] == x && s[|b| + 1..] == y;
  }

  /** Equal keys mean equal kinds and equal payload texts. */
  lemma {:induction false} KeyIsInjective(k1: JobKind, p1: Payload, k2: JobKind, p2: Payload)
    requires KeyOf(k1, p1) == KeyOf(k2, p2)
    ensures k1 == k2 && p1.text == p2.text
  {
    NameIsPlain(k1);
    NameIsPlain(k2);
    hide JobKind.Name;
    SplitAtColon(k1.Name(), p1.text, k2.Name(), p2.text);
    NameIsInjective(k1, k2);
  }

  predicate DistinctIds(jobs: seq<Job>) {
    forall i, j :: 0 <= i < j < |jobs| ==> jobs[i].id != jobs[j].id
  }

  predicate HasId(jobs: seq<Job>, id: string) {
    exists i :: 0 <= i < |jobs| && jobs[i].id == id
  }
}
