/** The projection of jobs to timeline events, `src/services/automation_events.rs`,
    against the event status machine of `src/models/automation_event.rs`. */
module Events {
  import opened Options
  import opened JobModel
  import opened Store
  import opened Text
  import opened Recovery
  import opened Ledger
  import opened Worker
  import opened Bounded

  datatype AutomationStatus = Pending | Running | Succeeded | Skipped | Failed | Retrying | Canceled {
    predicate CanTransitionTo(next: AutomationStatus) {
      || this == next
      || match this
         case Pending => next.Running? || next.Skipped? || next.Failed? || next.Canceled?
         case Running => next.Succeeded? || next.Skipped? || next.Failed? || next.Retrying? || next.Canceled?
         case Failed => next.Retrying? || next.Canceled?
         case Retrying => next.Pending? || next.Running? || next.Failed? || next.Canceled?
         case _ => false
    }
  }

  function EventStatus(s: JobStatus): AutomationStatus {
    match s
    case Queued => Pending
    case Running => AutomationStatus.Running
    case Succeeded => AutomationStatus.Succeeded
    case Failed => AutomationStatus.Failed
    case Canceled => AutomationStatus.Canceled
  }

  // --------------------------------------------------------------- event ids

  function EventIdOf(id: string, attempt: nat): string {
    if attempt > 1 then "job:" + id + ":attempt:" + Decimal(attempt) else "job:" + id
  }

  function EventId(job: Job): string {
    EventIdOf(job.id, job.attempt)
  }

  predicate Plain(id: string) {
    ':' !in id
  }

  function Tail(attempt: nat): string {
    "attempt:" + Decimal(attempt)
  }

  lemma {:induction false} EventIdSplits(id: string, attempt: nat)
    ensures attempt > 1 ==> EventIdOf(id, attempt) == "job" + ":" + (id + ":" + Tail(attempt))
    ensures attempt <= 1 ==> EventIdOf(id, attempt) == "job" + ":" + id
  {
    if attempt > 1 {
      hide Decimal;
      assert ("job:" + id + ":attempt:") + Decimal(attempt)
        == "job" + ":" + (id + ":" + ("attempt:" + Decimal(attempt)));
    }
  }

  /** Jobs with plain ids never share an event, and neither do two attempts of one job. */
  lemma {:induction false} EventIdIsInjective(id1: string, n1: nat, id2: string, n2: nat)
    requires Plain(id1) && Plain(id2) && n1 >= 1 && n2 >= 1 && EventIdOf(id1, n1) == EventIdOf(id2, n2)
    ensures id1 == id2 && n1 == n2
  {
    EventIdSplits(id1, n1);
    EventIdSplits(id2, n2);
    hide EventIdOf; hide Decimal;
    var rest1 := if n1 > 1 then id1 + ":" + Tail(n1) else id1;
    var rest2 := if n2 > 1 then id2 + ":" + Tail(n2) else id2;
    SplitAtColon("job", rest1, "job", rest2);
    if n1 > 1 && n2 > 1 {
      SplitAtColon(id1, Tail(n1), id2, Tail(n2));
      assert Tail(n1)[8..] == Decimal(n1) && Tail(n2)[8..] == Decimal(n2);
      DecimalIsInjective(n1, n2);
    } else {
      ColonInside(id1, Tail(n1));
      ColonInside(id2, Tail(n2));
    }
  }

  lemma {:induction false} ColonInside(id: string, tail: string)
    ensures ':' in id + ":" + tail
  {
    assert (id + ":" + tail)[|id|] == ':';
  }

  // ------------------------------------------------------------- one change

  /** An update that ends a job without looking whether it already ended. */
  predicate IsLate(e: Edit, job: Job) {
    || ((e.FailMissing? || e.Interrupt? || e.QueueUnavailable?) && (job.status.Succeeded? || job.status.Canceled?))
    || ((e.SkipPush? || e.SkipDuplicate?) && job.status.Succeeded?)
  }

  /** Every change of a job maps to an allowed step of its event, exactly unless it is
      late; a retry goes from a failed attempt to the next one's own event. */
  lemma {:induction false} ChangeIsAllowedIff(e: Edit, job: Job, now: int)
    requires EditJob(e, job, now).Some? && (e.Requeue? ==> e.attempt > job.attempt)
    ensures var after := EditJob(e, job, now).value;
            && after.attempt == (if e.Requeue? then e.attempt else job.attempt)
            && (e.Requeue? ==> job.status.Failed? && after.status.Queued?)
            && (!e.Requeue? ==>
               (EventStatus(job.status).CanTransitionTo(EventStatus(after.status)) <==> !IsLate(e, job)))
            && (!e.Requeue? && IsTerminal(job) && !IsLate(e, job) && after.status != job.status ==>
                  job.status.Failed? && after.status.Canceled?)
  {
  }

  // ------------------------------------------------------------ the timeline

  type Timeline = map<string, AutomationStatus>

  /** The status part of `upsert`: None when the step is refused. */
  function Upsert(tl: Timeline, job: Job): Option<Timeline> {
    if EventId(job) in tl && !tl[EventId(job)].CanTransitionTo(EventStatus(job.status)) then None
    else Some(tl[EventId(job) := EventStatus(job.status)])
  }

  /** The single-job update an action makes, if it makes one. */
  function EditOf(s: System, a: Action): Option<(string, Edit, Write)>
    requires Enabled(s, a)
  {
    match a
    case CancelJob(id, w) => Some((id, Cancel, w))
    case SetPriority(id, priority, w) => Some((id, Reprioritize(priority), w))
    case Report(id, e, w) => Some((id, e, w))
    case Claim(w) => Some((s.phase.job.id, Edit.Claim(s.phase.job.priority), w))
    case Join(i, outcome, w) => OutcomeEdit(s.tasks[i].id, outcome, w)
    case DrainJoin(i, outcome, w) => OutcomeEdit(s.tasks[i].id, outcome, w)
    case ClearError(w) => Some((s.phase.id, Edit.ClearError, w))
    case AttachClass(w) => Some((s.phase.failed.id, Edit.AttachClass(s.phase.error), w))
    case Requeue(digest, w) => Some((s.phase.failed.id, RetryOf(s.phase.failed, digest, s.now), w))
    case RecoverNext(w) =>
      if s.phase.todo == [] then None
      else
        (match Judge(s.phase.todo[0], s.phase.seen, s.phase.interrupted)
         case Mark(e) => Some((s.phase.todo[0].id, e, w))
         case _ => None)
    case MarkNext(w) =>
      if s.phase.listed[0].status.Running? then Some((s.phase.listed[0].id, Interrupt, w)) else None
    case QueueGone(id, w) => Some((id, QueueUnavailable, w))
    case _ => None
  }

  function OutcomeEdit(id: string, outcome: Outcome, w: Write): Option<(string, Edit, Write)> {
    match outcome
    case Finished => None
    case Erred(error) => Some((id, FailError(error), w))
    case Panicked => Some((id, FailPanic, w))
    case TimedOut => Some((id, FailTimeout, w))
  }

  function Written(mem: seq<Job>, id: string, e: Edit, now: int, w: Write): Option<Job> {
    if w.Done? && EditList(mem, id, e, now).Some? then Lookup(EditList(mem, id, e, now).value, id) else None
  }

  /** The job a step publishes to the timeline: only what has been saved, and nothing during
      start-up, which is over before the timeline listens. */
  function Published(s: System, a: Action): Option<Job>
    requires Enabled(s, a)
  {
    if a.RecoverNext? then None
    else
      match EditOf(s, a)
      case Some((id, e, w)) => Written(s.files.mem, id, e, s.now, w)
      case None =>
        if a.Submit? && a.w.Done? && Existing(s.files.mem, NewJob(a.id, a.kind, a.payload, a.priority, s.now)).None?
        then Some(NewJob(a.id, a.kind, a.payload, a.priority, s.now)) else None
  }

  lemma {:induction false} StepIsEdit(s: System, a: Action)
    requires Enabled(s, a) && EditOf(s, a).Some?
    ensures var edit := EditOf(s, a).value;
            Step(s, a).files == Updated(s.files, edit.0, edit.1, s.now, edit.2) && Step(s, a).kinds == s.kinds
  {
    hide Updated; hide Lookup; hide EditList; hide RetryOf; hide SeenAfter;
  }

  // ------------------------------------------------------- what steps change

  lemma {:induction false} EditRetryOk(s: System, a: Action)
    requires LedgerInv(s) && Enabled(s, a) && EditOf(s, a).Some?
    ensures RetryOk(s.files.mem, EditOf(s, a).value.0, EditOf(s, a).value.1)
  {
    hide ListOk; hide JobFits;
    var edit := EditOf(s, a).value;
    if a.Requeue? {
      FitRetry(s.files.mem, s.phase.failed, edit.1, s.starts, s.kinds);
    } else {
      assert !edit.1.Requeue?;
    }
  }

  lemma {:induction false} PublishedEdit(s: System, a: Action)
    requires Enabled(s, a) && EditOf(s, a).Some? && !a.RecoverNext?
    ensures var edit := EditOf(s, a).value; var after := EditList(s.files.mem, edit.0, edit.1, s.now);
            && (!edit.2.Done? || after.None? ==> Published(s, a).None?)
            && (edit.2.Done? && after.Some? ==> Published(s, a) == Lookup(after.value, edit.0))
  {
    hide EditOf; hide EditList; hide Lookup; hide Enabled;
  }

  lemma {:induction false} UpdatedIs(f: Files, id: string, e: Edit, now: int, w: Write)
    ensures var after := EditList(f.mem, id, e, now);
            Updated(f, id, e, now, w).mem == if w.Done? && after.Some? then after.value else f.mem
  {
    hide EditList;
  }

  lemma {:induction false} SelectFrom(jobs: seq<Job>, ids: set<string>, among: bool)
    ensures forall j :: j in Store.Select(jobs, ids, among) ==> j in jobs
  {
    if jobs != [] {
      SelectFrom(jobs[1..], ids, among);
    }
  }

  lemma {:induction false} ArchivedFrom(f: Files, retain: nat, cap: nat, w: Write, w2: Write)
    ensures forall j :: j in Archived(f, retain, cap, w, w2).mem ==> j in f.mem
  {
    SelectFrom(f.mem, Ids(OldestTerminal(f.mem, Surplus(f.mem, retain))), false);
    hide Store.Select; hide Ids; hide OldestTerminal; hide Surplus; hide LastJobs;
  }

  lemma {:induction false} ClearedFrom(f: Files, w: Write, w2: Write)
    ensures forall j :: j in Cleared(f, w, w2).mem ==> j in f.mem
  {
    LiveTwice(f.mem);
    hide Live;
  }

  lemma {:induction false} CompactedFrom(s: System, w: Write)
    requires LedgerInv(s)
    ensures forall j :: j in Committed(s.files, Truncated(s.files.mem), w).mem ==> j in s.files.mem
  {
    ListIsDistinct(s.files.mem, s.starts, s.kinds);
    TruncatedFewer(s.files.mem);
    hide LedgerInv; hide Truncated; hide DistinctIds;
  }

  lemma {:induction false} UntouchedFiles(s: System, a: Action)
    requires Enabled(s, a) && EditOf(s, a).None? && !a.Submit? && !a.Crash? && !a.ArchiveJobs? && !a.ClearJobs?
            && !a.CompactJobs?
    ensures Step(s, a).files == s.files && Step(s, a).kinds == s.kinds
  {
    hide Lookup; hide EditList; hide Updated; hide SeenAfter; hide QueueAll; hide QueuePending; hide Claimed;
  }

  // ------------------------------------------------------------- one job's event

  /** The job's event, if the job is listed, shows the job's status. */
  ghost predicate Shows(tl: Timeline, mem: seq<Job>, id: string) {
    forall j :: j in mem && j.id == id ==> EventId(j) in tl && tl[EventId(j)] == EventStatus(j.status)
  }

  /** No event belongs to an attempt not reached yet, or to the id before it is submitted. */
  ghost predicate OnlyPast(tl: Timeline, mem: seq<Job>, kinds: map<string, JobKind>, id: string) {
    forall n: nat :: n >= 1 && EventIdOf(id, n) in tl ==>
      id in kinds && forall j :: j in mem && j.id == id ==> n <= j.attempt
  }

  /** What an event refuses of a job: once succeeded, skipped or canceled, everything else; once
      failed, all but a cancellation; while pending or retrying, a success whose start it has
      not seen; while running, a job that is queued. */
  lemma {:induction false} RefusedIff(tl: Timeline, job: Job)
    requires EventId(job) in tl
    ensures Upsert(tl, job).None? <==>
            match tl[EventId(job)]
            case Pending => job.status.Succeeded?
            case Running => job.status.Queued?
            case Succeeded => !job.status.Succeeded?
            case Failed => !job.status.Failed? && !job.status.Canceled?
            case Retrying => job.status.Succeeded?
            case Skipped => true
            case Canceled => !job.status.Canceled?
    ensures Upsert(tl, job).Some? ==>
              forall e :: e in Upsert(tl, job).value <==> e in tl
    ensures Upsert(tl, job).Some? ==>
              forall e :: e in tl && e != EventId(job) ==> Upsert(tl, job).value[e] == tl[e]
  {
    hide EventIdOf;
  }

  /** What a timeline that shows a job says: under the id of its attempt, its status. */
  lemma {:induction false} ShownMeans(tl: Timeline, mem: seq<Job>, job: Job)
    requires job in mem && Shows(tl, mem, job.id)
    ensures var event := if job.attempt > 1 then "job:" + job.id + ":attempt:" + Decimal(job.attempt)
            else "job:" + job.id;
            && event in tl
            && match job.status
               case Queued => tl[event].Pending?
               case Running => tl[event].Running?
               case Succeeded => tl[event].Succeeded?
               case Failed => tl[event].Failed?
               case Canceled => tl[event].Canceled?
  {
    assert EventId(job) == if job.attempt > 1 then "job:" + job.id + ":attempt:" + Decimal(job.attempt)
      else "job:" + job.id by {
      hide Decimal;
    }
    hide EventIdOf; hide Decimal;
  }

  ghost predicate Follows(s: System, tl: Timeline, id: string) {
    Shows(tl, s.files.mem, id) && OnlyPast(tl, s.files.mem, s.kinds, id)
  }

  ghost predicate PlainIds(kinds: map<string, JobKind>) {
    forall id :: id in kinds ==> Plain(id)
  }

  /** The timeline after hearing of a job; a refused step leaves it as it was. */
  function Heard(tl: Timeline, job: Job): Timeline {
    Upsert(tl, job).GetOr(tl)
  }

  function After(s: System, a: Action, tl: Timeline): Timeline
    requires Enabled(s, a)
  {
    if Published(s, a).Some? then Heard(tl, Published(s, a).value) else tl
  }

  /** The step publishes this job and its event refuses. */
  predicate Refuses(s: System, a: Action, tl: Timeline, id: string)
    requires Enabled(s, a)
  {
    Published(s, a).Some? && Published(s, a).value.id == id && Upsert(tl, Published(s, a).value).None?
  }

  /** The step saves an ending over this job without looking that it already ended. */
  predicate IsLateStep(s: System, a: Action, id: string)
    requires Enabled(s, a)
  {
    && Published(s, a).Some? && EditOf(s, a).Some? && EditOf(s, a).value.0 == id
    && Lookup(s.files.mem, id).Some? && IsLate(EditOf(s, a).value.1, Lookup(s.files.mem, id).value)
  }

  /** An update of another job. */
  lemma {:induction false} OtherIsFollowed(mem: seq<Job>, after: seq<Job>, tl: Timeline, k: Job, id: string,
          kinds: map<string, JobKind>)
    requires Shows(tl, mem, id) && OnlyPast(tl, mem, kinds, id) && Plain(id) && Plain(k.id) && k.id != id
            && k.attempt >= 1
    requires forall j :: j in mem && j.id == id ==> j.attempt >= 1
    requires forall j :: j in after && j.id == id ==> j in mem
    ensures Shows(Heard(tl, k), after, id) && OnlyPast(Heard(tl, k), after, kinds, id)
  {
    hide EventIdOf; hide EventStatus; hide Plain;
    forall n: nat | n >= 1 ensures EventIdOf(id, n) != EventIdOf(k.id, k.attempt) {
      if EventIdOf(id, n) == EventIdOf(k.id, k.attempt) {
        EventIdIsInjective(id, n, k.id, k.attempt);
      }
    }
  }

  /** An update of the job itself, kept on its attempt or retried on a later one. */
  lemma {:induction false} OwnIsFollowed(mem: seq<Job>, after: seq<Job>, tl: Timeline, j: Job, k: Job,
          kinds: map<string, JobKind>)
    requires Shows(tl, mem, j.id) && OnlyPast(tl, mem, kinds, j.id) && j in mem && Plain(j.id)
    requires k.id == j.id && k.attempt >= j.attempt >= 1 && Upsert(tl, k).Some?
    requires forall x :: x in mem && x.id == j.id ==> x == j
    requires forall x :: x in after && x.id == j.id ==> x == k
    ensures Shows(Heard(tl, k), after, j.id) && OnlyPast(Heard(tl, k), after, kinds, j.id)
  {
    hide EventIdOf; hide EventStatus; hide Plain;
    forall n: nat | n >= 1 && EventIdOf(j.id, n) in Heard(tl, k) ensures j.id in kinds && n <= k.attempt {
      if EventIdOf(j.id, n) == EventIdOf(k.id, k.attempt) {
        EventIdIsInjective(j.id, n, k.id, k.attempt);
        assert EventId(j) in tl;
      }
    }
  }

  /** The event accepts one saved edit of its job exactly unless the edit is late. */
  lemma {:induction false} AcceptsIff(mem: seq<Job>, tl: Timeline, j: Job, e: Edit, now: int,
          kinds: map<string, JobKind>)
    requires Shows(tl, mem, j.id) && OnlyPast(tl, mem, kinds, j.id) && j in mem && j.attempt >= 1
    requires EditJob(e, j, now).Some? && (e.Requeue? ==> e.attempt == j.attempt + 1)
    ensures Upsert(tl, EditJob(e, j, now).value.(updatedAt := now)).None? <==> IsLate(e, j)
  {
    EditKeepsIdentity(e, j, now);
    ChangeIsAllowedIff(e, j, now);
    var k := EditJob(e, j, now).value.(updatedAt := now);
    hide EditJob; hide EventIdOf; hide EventStatus;
    assert EventId(j) == EventIdOf(j.id, j.attempt);
    if e.Requeue? {
      assert EventIdOf(k.id, k.attempt) !in tl;
    } else {
      assert EventId(k) == EventId(j);
    }
  }

  /** What a list looks like after an edit. */
  lemma {:induction false} EditedList(jobs: seq<Job>, id: string, e: Edit, now: int)
    requires DistinctIds(jobs) && EditList(jobs, id, e, now).Some?
    ensures Lookup(jobs, id).Some? && EditJob(e, Lookup(jobs, id).value, now).Some?
    ensures var k := EditJob(e, Lookup(jobs, id).value, now).value.(updatedAt := now);
            var after := EditList(jobs, id, e, now).value;
            && Lookup(after, id) == Some(k) && k.id == id
            && (forall x :: x in after && x.id == id ==> x == k)
            && (forall x :: x in after && x.id != id ==> x in jobs)
            && (forall x :: x in jobs && x.id == id ==> x == Lookup(jobs, id).value)
  {
    var i := Find(jobs, id);
    EditKeepsIdentity(e, jobs[i], now);
    var k := EditJob(e, jobs[i], now).value.(updatedAt := now);
    FindAfterEdit(jobs, i, k);
    hide EditJob;
    var after := jobs[i := k];
    forall p | 0 <= p < |after| ensures if p == i then after[p] == k else after[p] in jobs && after[p].id != id {
      assert p != i ==> after[p] == jobs[p] && jobs[p].id != jobs[i].id;
    }
    assert jobs[i] in jobs;
  }

  /** One saved edit of a listed job, as any job's event sees it. */
  lemma {:induction false} EditIsFollowed(mem: seq<Job>, tl: Timeline, who: string, e: Edit, now: int,
          starts: Starts, kinds: map<string, JobKind>, id: string)
    requires ListOk(mem, starts, kinds) && PlainIds(kinds) && Plain(id) && RetryOk(mem, who, e)
    requires Shows(tl, mem, id) && OnlyPast(tl, mem, kinds, id) && EditList(mem, who, e, now).Some?
    ensures Lookup(mem, who).Some? && Lookup(EditList(mem, who, e, now).value, who).Some?
    ensures var k := Lookup(EditList(mem, who, e, now).value, who).value; var late := IsLate(e, Lookup(mem, who).value);
            && k.id == who
            && (who == id ==> (Upsert(tl, k).None? <==> late))
            && (who != id || !late ==>
                  Shows(Heard(tl, k), EditList(mem, who, e, now).value, id)
                  && OnlyPast(Heard(tl, k), EditList(mem, who, e, now).value, kinds, id))
  {
    EditedList(mem, who, e, now);
    var j := Lookup(mem, who).value;
    LookupIsListed(mem, who);
    assert JobOk(j, starts, kinds);
    forall x | x in mem ensures x.attempt >= 1 {
      assert JobOk(x, starts, kinds);
    }
    EditKeepsIdentity(e, j, now);
    var after := EditList(mem, who, e, now).value;
    var k := EditJob(e, j, now).value.(updatedAt := now);
    assert e.Requeue? ==> k.attempt == e.attempt by { ChangeIsAllowedIff(e, j, now); }
    hide EditList; hide Lookup; hide ListOk; hide IsLate; hide Shows; hide OnlyPast; hide Upsert; hide Heard;
    hide EditJob;
    if who == id {
      AcceptsIff(mem, tl, j, e, now, kinds);
      if !IsLate(e, j) {
        OwnIsFollowed(mem, after, tl, j, k, kinds);
      }
    } else {
      OtherIsFollowed(mem, after, tl, k, id, kinds);
    }
  }

  lemma {:induction false} EditStep(s: System, a: Action, tl: Timeline, id: string)
    requires LedgerInv(s) && Follows(s, tl, id) && Plain(id) && PlainIds(s.kinds) && Enabled(s, a)
    requires EditOf(s, a).Some? && !a.RecoverNext?
    ensures Refuses(s, a, tl, id) <==> IsLateStep(s, a, id)
    ensures !IsLateStep(s, a, id) ==> Follows(Step(s, a), After(s, a, tl), id)
  {
    var (who, e, w) := EditOf(s, a).value;
    StepIsEdit(s, a);
    PublishedEdit(s, a);
    UpdatedIs(s.files, who, e, s.now, w);
    hide Step; hide EditOf; hide EditList; hide Lookup; hide Shows; hide OnlyPast; hide Upsert; hide Heard;
    hide IsLate; hide Updated; hide Written; hide Enabled; hide PlainIds; hide Published;
    if w.Done? && EditList(s.files.mem, who, e, s.now).Some? {
      EditRetryOk(s, a);
      LedgerLists(s);
      hide LedgerInv;
      EditIsFollowed(s.files.mem, tl, who, e, s.now, s.starts, s.kinds, id);
    }
  }

  lemma {:induction false} LedgerLists(s: System)
    requires LedgerInv(s)
    ensures ListOk(s.files.mem, s.starts, s.kinds)
  {
  }

  /** The steps that publish nothing of their own change no listed job. */
  lemma {:induction false} SilentStep(s: System, a: Action)
    requires LedgerInv(s) && Enabled(s, a) && EditOf(s, a).None? && !a.Submit? && !a.Crash?
    ensures Published(s, a).None? && Step(s, a).kinds == s.kinds
    ensures forall j :: j in Step(s, a).files.mem ==> j in s.files.mem
  {
    hide LedgerInv; hide Truncated; hide Archived; hide Cleared;
    match a
    case ArchiveJobs(retain, cap, w, w2) => ArchivedFrom(s.files, retain, cap, w, w2);
    case ClearJobs(w, w2) => ClearedFrom(s.files, w, w2);
    case CompactJobs(w) => CompactedFrom(s, w);
    case _ => UntouchedFiles(s, a);
  }

  lemma {:induction false} FewerIsFollowed(mem: seq<Job>, after: seq<Job>, tl: Timeline, kinds: map<string, JobKind>,
          id: string)
    requires Shows(tl, mem, id) && OnlyPast(tl, mem, kinds, id) && forall j :: j in after ==> j in mem
    ensures Shows(tl, after, id) && OnlyPast(tl, after, kinds, id)
  {
  }

  /** A new job opens its event; every other job's is left alone. */
  lemma {:induction false} NewIsFollowed(mem: seq<Job>, tl: Timeline, job: Job, starts: Starts,
          kinds: map<string, JobKind>, id: string)
    requires ListOk(mem, starts, kinds) && Plain(job.id) && Plain(id) && job.id !in kinds && IsNew(job)
    requires Shows(tl, mem, id) && OnlyPast(tl, mem, kinds, id)
    ensures job.id == id ==> Upsert(tl, job).Some?
    ensures Shows(Heard(tl, job), mem + [job], id)
            && OnlyPast(Heard(tl, job), mem + [job], kinds[job.id := job.kind], id)
    ensures OnlyPast(tl, mem, kinds[job.id := job.kind], id)
  {
    var all, more := mem + [job], kinds[job.id := job.kind];
    forall j | j in mem ensures j.id != job.id && j.attempt >= 1 {
      assert JobOk(j, starts, kinds);
    }
    hide ListOk; hide EventIdOf; hide EventStatus; hide Plain;
    assert forall j :: j in all ==> j == job || j in mem;
    if id == job.id {
      forall n: nat | n >= 1 && EventIdOf(id, n) in Heard(tl, job) ensures n == 1 {
        if EventIdOf(id, n) == EventIdOf(job.id, 1) {
          EventIdIsInjective(id, n, job.id, 1);
        }
      }
      assert EventIdOf(id, 1) !in tl;
    } else {
      OtherIsFollowed(mem, all, tl, job, id, kinds);
    }
  }

  lemma {:induction false} SubmitStep(s: System, a: Action, tl: Timeline, id: string)
    requires LedgerInv(s) && Follows(s, tl, id) && Plain(id) && Enabled(s, a) && a.Submit? && PlainIds(Step(s, a).kinds)
    ensures !Refuses(s, a, tl, id) && Follows(Step(s, a), After(s, a, tl), id)
  {
    var job := NewJob(a.id, a.kind, a.payload, a.priority, s.now);
    var mem, more := s.files.mem, s.kinds[a.id := a.kind];
    assert Step(s, a).kinds == more && Step(s, a).files == Inserted(s.files, job, a.w);
    assert a.id in more && Plain(a.id);
    NewIsFollowed(mem, tl, job, s.starts, s.kinds, id);
    FreshIsDistinct(mem, job, s.starts, s.kinds);
    TruncatedFewer(mem + [job]);
    FewerIsFollowed(mem + [job], Truncated(mem + [job]), Heard(tl, job), more, id);
    hide LedgerInv; hide Shows; hide OnlyPast; hide Upsert; hide Heard; hide Truncated; hide Existing; hide NewJob;
    hide DistinctIds; hide PlainIds; hide Step;
  }

  /** Every step after start-up: a job's event refuses what is published of the job exactly
      if an ending was saved over an ended job unlooked, and otherwise shows the job again. */
  lemma {:induction false} EventStep(s: System, a: Action, tl: Timeline, id: string)
    requires LedgerInv(s) && Follows(s, tl, id) && Plain(id) && Enabled(s, a) && !a.Crash? && !s.phase.Recovering?
    requires PlainIds(s.kinds) && PlainIds(Step(s, a).kinds)
    ensures Refuses(s, a, tl, id) <==> IsLateStep(s, a, id)
    ensures !IsLateStep(s, a, id) ==> Follows(Step(s, a), After(s, a, tl), id)
  {
    if EditOf(s, a).Some? {
      hide LedgerInv; hide Step; hide Published; hide EditOf; hide Upsert; hide PlainIds; hide Lookup; hide IsLate;
      hide Follows; hide After;
      hide Refuses; hide IsLateStep;
      EditStep(s, a, tl, id);
    } else if a.Submit? {
      SubmitStep(s, a, tl, id);
      hide LedgerInv; hide Step; hide Published; hide EditOf; hide PlainIds; hide Lookup; hide IsLate; hide Follows;
      hide After; hide Refuses;
    } else {
      SilentStep(s, a);
      FewerIsFollowed(s.files.mem, Step(s, a).files.mem, tl, s.kinds, id);
      hide LedgerInv; hide Step; hide Published; hide EditOf; hide Upsert; hide PlainIds; hide Lookup; hide IsLate;
      hide Shows; hide OnlyPast;
    }
  }

  lemma {:induction false} StaysUp(s: System, a: Action)
    requires Enabled(s, a) && !a.Crash? && !s.phase.Recovering?
    ensures !Step(s, a).phase.Recovering?
  {
  }

  // --------------------------------------------------------------- the runs

  /** The timeline after everything a run publishes. */
  function Follow(s: System, run: seq<Action>, tl: Timeline): Timeline
    requires IsRun(s, run)
    decreases |run|
  {
    if run == [] then tl else Follow(Step(s, run[0]), run[1..], After(s, run[0], tl))
  }

  predicate EverRefuses(s: System, run: seq<Action>, tl: Timeline, id: string)
    requires IsRun(s, run)
    decreases |run|
  {
    run != [] && (Refuses(s, run[0], tl, id) || EverRefuses(Step(s, run[0]), run[1..], After(s, run[0], tl), id))
  }

  predicate EverLate(s: System, run: seq<Action>, id: string)
    requires IsRun(s, run)
    decreases |run|
  {
    run != [] && (IsLateStep(s, run[0], id) || EverLate(Step(s, run[0]), run[1..], id))
  }

  lemma {:induction false} EarlierPlain(s: System, run: seq<Action>)
    requires IsRun(s, run) && PlainIds(Final(s, run).kinds)
    ensures PlainIds(s.kinds)
  {
    RunCounts(s, run, "");
    hide IsRun; hide Final;
    forall id | id in s.kinds ensures Plain(id) {
      assert id in Final(s, run).kinds;
    }
  }

  /** The timeline follows the jobs: from any moment after start-up at which a job's event
      shows it, or it is not submitted yet, up to the next crash, its event refuses
      something exactly if an ending is saved over its end unlooked; and if none is, the
      event shows the job at the end, whatever happens to other jobs and their events. */
  lemma {:induction false} TimelineFollowsIff(s: System, run: seq<Action>, tl: Timeline, id: string)
    requires LedgerInv(s) && !s.phase.Recovering? && Follows(s, tl, id) && IsRun(s, run)
    requires Plain(id) && PlainIds(Final(s, run).kinds) && forall i :: 0 <= i < |run| ==> !run[i].Crash?
    ensures EverRefuses(s, run, tl, id) <==> EverLate(s, run, id)
    ensures !EverLate(s, run, id) ==> Follows(Final(s, run), Follow(s, run, tl), id)
    decreases |run|
  {
    hide LedgerInv; hide Follows; hide Step; hide Enabled; hide IsLateStep; hide Refuses; hide After; hide PlainIds;
    if run != [] {
      var t := Step(s, run[0]);
      EarlierPlain(s, run);
      EarlierPlain(t, run[1..]);
      LedgerStep(s, run[0]);
      StaysUp(s, run[0]);
      EventStep(s, run[0], tl, id);
      if !IsLateStep(s, run[0], id) {
        TimelineFollowsIff(t, run[1..], After(s, run[0], tl), id);
      }
    }
  }

  // ------------------------------------------------------ the late endings

  /** There are three: a body that finds its subscription missing, a mark at shutdown made
      from an older listing, and a submission whose wake-up fails. */
  lemma {:induction false} LateEndings(s: System, a: Action, id: string)
    requires Enabled(s, a) && IsLateStep(s, a, id)
    ensures (a.Report? && a.progress.FailMissing?) || a.MarkNext? || a.QueueGone?
  {
    hide Lookup; hide Written;
  }

  lemma {:induction false} EditedTo(jobs: seq<Job>, id: string, e: Edit, now: int)
    requires Lookup(jobs, id).Some?
    ensures EditJob(e, Lookup(jobs, id).value, now).Some? ==>
              var after := EditList(jobs, id, e, now);
              after.Some? && Lookup(after.value, id)
                == Some(EditJob(e, Lookup(jobs, id).value, now).value.(updatedAt := now))
  {
    var i := Find(jobs, id);
    if EditJob(e, jobs[i], now).Some? {
      EditKeepsIdentity(e, jobs[i], now);
      FindAfterEdit(jobs, i, EditList(jobs, id, e, now).value[i]);
    }
  }

  lemma {:induction false} EditLands(s: System, a: Action, id: string, e: Edit)
    requires Enabled(s, a) && EditOf(s, a) == Some((id, e, Done))
    requires Lookup(s.files.mem, id).Some? && EditJob(e, Lookup(s.files.mem, id).value, s.now).Some?
    ensures Lookup(Step(s, a).files.mem, id)
            == Some(EditJob(e, Lookup(s.files.mem, id).value, s.now).value.(updatedAt := s.now))
  {
    StepIsEdit(s, a);
    EditedTo(s.files.mem, id, e, s.now);
    hide Lookup; hide EditList; hide Step; hide EditOf; hide Enabled;
  }

  lemma {:induction false} LateHere(s: System, a: Action, id: string, e: Edit)
    requires Enabled(s, a) && !a.RecoverNext? && EditOf(s, a) == Some((id, e, Done))
    requires Lookup(s.files.mem, id).Some? && IsLate(e, Lookup(s.files.mem, id).value)
    ensures IsLateStep(s, a, id)
  {
    EditedTo(s.files.mem, id, e, s.now);
    PublishedEdit(s, a);
    hide Lookup; hide EditList; hide Step; hide EditOf; hide Enabled; hide Published;
  }

  /** A running scrape is canceled while its body is about to find its subscription missing. */
  lemma {:induction false} CancelThenMissing(s: System, id: string)
    requires !s.phase.Recovering? && Lookup(s.files.mem, id).Some?
    requires Lookup(s.files.mem, id).value.kind.MetadataScrape? && Lookup(s.files.mem, id).value.status.Running?
    ensures var a, b := CancelJob(id, Done), Report(id, FailMissing, Done);
            Enabled(s, a) && Enabled(Step(s, a), b) && IsLateStep(Step(s, a), b, id)
  {
    EditLands(s, CancelJob(id, Done), id, Cancel);
    assert Step(s, CancelJob(id, Done)).phase == s.phase;
    hide Lookup; hide Step; hide IsLateStep;
    LateHere(Step(s, CancelJob(id, Done)), Report(id, FailMissing, Done), id, FailMissing);
  }

  /** A body succeeds between the listing and the mark at shutdown. */
  lemma {:induction false} SuccessThenMark(s: System, id: string)
    requires s.phase.Marking? && s.phase.listed != [] && s.phase.listed[0].id == id && s.phase.listed[0].status.Running?
    requires Lookup(s.files.mem, id).Some? && Lookup(s.files.mem, id).value.status.Running?
    ensures var a, b := Report(id, Complete(true), Done), MarkNext(Done);
            Enabled(s, a) && Enabled(Step(s, a), b) && IsLateStep(Step(s, a), b, id)
  {
    EditLands(s, Report(id, Complete(true), Done), id, Complete(true));
    assert Step(s, Report(id, Complete(true), Done)).phase == s.phase;
    hide Lookup; hide Step; hide IsLateStep;
    LateHere(Step(s, Report(id, Complete(true), Done)), MarkNext(Done), id, Interrupt);
  }

  /** A job is canceled between its submission and the failure of its wake-up. */
  lemma {:induction false} CancelThenGone(s: System, id: string)
    requires s.phase.Down? && id in s.unsent && Lookup(s.files.mem, id).Some?
            && Lookup(s.files.mem, id).value.status.Queued?
    ensures var a, b := CancelJob(id, Done), QueueGone(id, Done);
            Enabled(s, a) && Enabled(Step(s, a), b) && IsLateStep(Step(s, a), b, id)
  {
    EditLands(s, CancelJob(id, Done), id, Cancel);
    assert Step(s, CancelJob(id, Done)).phase == s.phase && Step(s, CancelJob(id, Done)).unsent == s.unsent;
    hide Lookup; hide Step; hide IsLateStep;
    LateHere(Step(s, CancelJob(id, Done)), QueueGone(id, Done), id, QueueUnavailable);
  }

  // ------------------------------------------------------------- start-up

  ghost predicate ShowsAll(tl: Timeline, mem: seq<Job>) {
    forall j :: j in mem ==> EventId(j) in tl && tl[EventId(j)] == EventStatus(j.status)
  }

  /** Nobody listens to start-up: a job whose event showed it is still shown exactly if
      start-up leaves it alone, because it is over, survives, or could not be written. */
  lemma {:induction false} StartUpIsSilent(f: Files, now: int, fate: string -> Write, tl: Timeline, i: nat)
    requires DistinctIds(f.mem) && i < |f.mem|
    requires EventId(f.mem[i]) in tl && tl[EventId(f.mem[i])] == EventStatus(f.mem[i].status)
    ensures |RecoverAll(f, now, fate).mem| == |f.mem|
    ensures var job, after := f.mem[i], RecoverAll(f, now, fate).mem[i];
            EventId(after) in tl && tl[EventId(after)] == EventStatus(after.status)
            <==> IsTerminal(job) || Survives(f.mem, job) || !fate(job.id).Done?
  {
    RecoveryMeans(f, now, fate, i);
    hide RecoverAll; hide Survives; hide EventIdOf;
  }

  /** So the timeline shows the list after a start-up whose writes work exactly if the
      reloaded list was quiet. */
  lemma {:induction false} StartUpKeepsTimelineIff(f: Files, now: int, fate: string -> Write, tl: Timeline)
    requires DistinctIds(f.mem) && AllWritten(fate) && ShowsAll(tl, f.mem)
    ensures ShowsAll(tl, RecoverAll(f, now, fate).mem) <==> Quiet(f.mem)
  {
    var after := RecoverAll(f, now, fate).mem;
    RecoverLength(f, RecoveryOrder(f.mem), {}, InterruptedKeys(RecoveryOrder(f.mem)), now, fate);
    assert |after| == |f.mem|;
    hide RecoverAll; hide Survives; hide Quiet; hide EventIdOf; hide EventStatus;
    QuietIff(f.mem);
    forall i | 0 <= i < |f.mem|
      ensures EventId(after[i]) in tl && tl[EventId(after[i])] == EventStatus(after[i].status)
              <==> IsTerminal(f.mem[i]) || Survives(f.mem, f.mem[i])
    {
      assert f.mem[i] in f.mem;
      StartUpIsSilent(f, now, fate, tl, i);
    }
    if ShowsAll(tl, after) {
      forall i | 0 <= i < |f.mem| ensures IsTerminal(f.mem[i]) || Survives(f.mem, f.mem[i]) {
        assert after[i] in after;
      }
    }
  }
}
