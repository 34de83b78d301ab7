/** `src/jobs/reliability.rs`: retry delays and the per-class circuit breakers. */
module Reliability {
  import opened Options
  import opened JobModel
  import opened Running

  const RETRY_BASE_SECONDS := 5
  const RETRY_MAX_SECONDS := 300
  const CIRCUIT_FAILURE_THRESHOLD := 3
  const CIRCUIT_RECOVERY_SECONDS := 60

  predicate IsRetryable(c: JobErrorClass) {
    c.RateLimited? || c.Transient? || c.Internal? || c.TimedOut?
  }

  /** The class a failed job is judged by; `guessed` stands for the class read off its texts. */
  function JobErrorClassOf(job: Job, guessed: JobErrorClass): Option<JobErrorClass> {
    if !job.status.Failed? then None else Some(job.errorClass.GetOr(guessed))
  }

  // ------------------------------------------------------------ retry delay

  function TwoToThe(e: nat): nat {
    if e == 0 then 1 else 2 * TwoToThe(e - 1)
  }

  /** Division that drops the fraction, as on machine integers. */
  function TruncDiv(a: int, b: int): int
    requires b > 0
  {
    if a >= 0 then a / b else -(-a / b)
  }

  function DelayWith(attempt: nat, jitter: int): int {
    var exponent := if attempt == 0 then 0 else if attempt - 1 < 6 then attempt - 1 else 6;
    var base := RETRY_BASE_SECONDS * TwoToThe(exponent);
    Clamp(base + TruncDiv(base * jitter, 100), 1, RETRY_MAX_SECONDS)
  }

  /** The delay before this attempt; `digest` is the first byte of the hash of id and attempt. */
  function RetryDelay(attempt: nat, digest: nat): int {
    DelayWith(attempt, digest % 41 - 20)
  }

  // The extreme delays: the jitter moves the base by at most a fifth.
  function Shortest(attempt: nat): int {
    match attempt
    case 0 => 4
    case 1 => 4
    case 2 => 8
    case 3 => 16
    case 4 => 32
    case 5 => 64
    case 6 => 128
    case _ => 256
  }

  function Longest(attempt: nat): int {
    match attempt
    case 0 => 6
    case 1 => 6
    case 2 => 12
    case 3 => 24
    case 4 => 48
    case 5 => 96
    case 6 => 192
    case _ => 300
  }

  lemma {:induction false} DelayRange(attempt: nat, digest: nat)
    ensures Shortest(attempt) <= RetryDelay(attempt, digest) <= Longest(attempt)
    ensures 1 <= RetryDelay(attempt, digest) <= RETRY_MAX_SECONDS
    ensures RetryDelay(attempt, 0) == Shortest(attempt) && RetryDelay(attempt, 40) == Longest(attempt)
  {
    hide DelayWith; hide Shortest; hide Longest;
    DelayWithRange(attempt, digest % 41 - 20);
    DelayWithRange(attempt, -20);
    DelayWithRange(attempt, 20);
  }

  lemma {:induction false} DelayWithRange(attempt: nat, jitter: int)
    requires -20 <= jitter <= 20
    ensures Shortest(attempt) <= DelayWith(attempt, jitter) <= Longest(attempt)
    ensures 1 <= DelayWith(attempt, jitter) <= RETRY_MAX_SECONDS
    ensures jitter == -20 ==> DelayWith(attempt, jitter) == Shortest(attempt)
    ensures jitter == 20 ==> DelayWith(attempt, jitter) == Longest(attempt)
  {
    BaseRange(if attempt == 0 then 0 else if attempt - 1 < 6 then attempt - 1 else 6, jitter);
    hide TwoToThe; hide TruncDiv;
  }

  function Base(exponent: nat): nat {
    match exponent
    case 0 => 5
    case 1 => 10
    case 2 => 20
    case 3 => 40
    case 4 => 80
    case 5 => 160
    case _ => 320
  }

  lemma {:induction false} BaseRange(exponent: nat, jitter: int)
    requires exponent <= 6 && -20 <= jitter <= 20
    ensures RETRY_BASE_SECONDS * TwoToThe(exponent) == Base(exponent)
    ensures var base := RETRY_BASE_SECONDS * TwoToThe(exponent);
            && -(base / 5) <= TruncDiv(base * jitter, 100) <= base / 5
            && (jitter == 20 ==> TruncDiv(base * jitter, 100) == base / 5)
            && (jitter == -20 ==> TruncDiv(base * jitter, 100) == -(base / 5))
  {
    assert TwoToThe(3) == 8;
    assert TwoToThe(6) == 64;
    JitterRange(Base(exponent), jitter);
  }

  lemma {:induction false} JitterRange(base: nat, jitter: int)
    requires -20 <= jitter <= 20 && base % 5 == 0
    ensures -(base / 5) <= TruncDiv(base * jitter, 100) <= base / 5
  {
    assert -20 * base <= base * jitter <= 20 * base;
  }

  lemma {:induction false} BelowTheCap(attempt: nat, jitter: int)
    requires 1 <= attempt <= 6 && -20 <= jitter <= 20
    ensures DelayWith(attempt, jitter) == Base(attempt - 1) + TruncDiv(Base(attempt - 1) * jitter, 100)
  {
    BaseRange(attempt - 1, jitter);
    BaseIsSmall(attempt - 1);
    hide TwoToThe; hide TruncDiv; hide Base;
  }

  lemma {:induction false} BaseIsSmall(exponent: nat)
    requires exponent <= 5
    ensures 5 <= Base(exponent) <= 160
  {
  }

  /** The jitter is even: below the cap, digests that mirror each other give delays that
      average to the doubling base. A division that rounds down would not. */
  lemma {:induction false} JitterIsEven(attempt: nat, digest: nat)
    requires 1 <= attempt <= 6 && digest <= 40
    ensures RetryDelay(attempt, digest) + RetryDelay(attempt, 40 - digest)
            == 2 * RETRY_BASE_SECONDS * TwoToThe(attempt - 1)
  {
    BelowTheCap(attempt, digest - 20);
    BelowTheCap(attempt, 20 - digest);
    BaseRange(attempt - 1, 0);
    hide TwoToThe; hide TruncDiv; hide Base; hide DelayWith;
    DelayOfDigest(attempt, digest);
    DelayOfDigest(attempt, 40 - digest);
    MirroredProduct(Base(attempt - 1), digest - 20, 20 - digest);
  }

  lemma {:induction false} DelayOfDigest(attempt: nat, digest: nat)
    requires digest <= 40
    ensures RetryDelay(attempt, digest) == DelayWith(attempt, digest - 20)
  {
    assert digest % 41 == digest;
    hide DelayWith;
  }

  lemma {:induction false} MirroredProduct(base: nat, up: int, down: int)
    requires down == -up
    ensures TruncDiv(base * down, 100) == -TruncDiv(base * up, 100)
  {
    var p := base * up;
    assert base * down == -p;
    MirroredDivision(p);
  }

  lemma {:induction false} MirroredDivision(a: int)
    ensures TruncDiv(-a, 100) == -TruncDiv(a, 100)
  {
  }

  predicate Grows(attempt: nat, d1: nat, d2: nat) {
    RetryDelay(attempt, d1) < RetryDelay(attempt + 1, d2)
  }

  /** Each delay exceeds the one before, whatever the digests, exactly for attempts 1 to 6. */
  lemma {:induction false} DelaysGrowIff(attempt: nat)
    ensures (forall d1: nat, d2: nat :: d1 < 256 && d2 < 256 ==> Grows(attempt, d1, d2)) <==> 1 <= attempt <= 6
  {
    hide RetryDelay;
    DelayRange(attempt, 0);
    DelayRange(attempt + 1, 0);
    assert Grows(attempt, 40, 0) <==> Longest(attempt) < Shortest(attempt + 1);
    forall d1: nat, d2: nat | d1 < 256 && d2 < 256 && 1 <= attempt <= 6 ensures Grows(attempt, d1, d2) {
      DelayRange(attempt, d1);
      DelayRange(attempt + 1, d2);
    }
  }

  // ---------------------------------------------------------- one breaker

  datatype Breaker = Breaker(failures: nat, openedAt: Option<int>, probe: bool)

  const CLOSED := Breaker(0, None, false)

  predicate Allows(b: Breaker, now: int) {
    b.openedAt.None? || (now - b.openedAt.value >= CIRCUIT_RECOVERY_SECONDS && !b.probe)
  }

  function Ask(b: Breaker, now: int): Breaker {
    if Allows(b, now) && b.openedAt.Some? then b.(probe := true) else b
  }

  function Fail(b: Breaker, c: JobErrorClass, now: int): Breaker {
    if !IsRetryable(c) then CLOSED
    else
      Breaker(b.failures + 1, if b.failures + 1 >= CIRCUIT_FAILURE_THRESHOLD then Some(now) else b.openedAt, false)
  }

  /** The breakers of the three classes; a class not seen yet is closed. */
  datatype Circuits = Circuits(transfer: Breaker, metadata: Breaker, push: Breaker) {
    function Of(c: JobClass): Breaker {
      match c
      case Transfer => transfer
      case Metadata => metadata
      case Push => push
    }

    function With(c: JobClass, b: Breaker): Circuits {
      match c
      case Transfer => this.(transfer := b)
      case Metadata => this.(metadata := b)
      case Push => this.(push := b)
    }
  }

  const ALL_CLOSED := Circuits(CLOSED, CLOSED, CLOSED)

  class CircuitBreakers {
    var states: map<JobClass, Breaker>

    function State(c: JobClass): Breaker
      reads this
    {
      if c in states then states[c] else CLOSED
    }

    function View(): Circuits
      reads this
    {
      Circuits(State(Transfer), State(Metadata), State(Push))
    }

    constructor ()
      ensures View() == ALL_CLOSED
    {
      states := map[];
    }

    method Allow(c: JobClass, now: int) returns (allowed: bool)
      modifies this
      ensures allowed == Allows(old(View()).Of(c), now)
      ensures View() == old(View()).With(c, Ask(old(View()).Of(c), now))
    {
      var state := State(c);
      states := states[c := state];
      if state.openedAt.None? {
        return true;
      }
      if now - state.openedAt.value < CIRCUIT_RECOVERY_SECONDS || state.probe {
        return false;
      }
      states := states[c := state.(probe := true)];
      return true;
    }

    method RecordSuccess(c: JobClass)
      modifies this
      ensures View() == old(View()).With(c, CLOSED)
    {
      states := states[c := CLOSED];
    }

    method RecordFailure(c: JobClass, error: JobErrorClass, now: int)
      modifies this
      ensures View() == old(View()).With(c, Fail(old(View()).Of(c), error, now))
    {
      var state := State(c);
      if !IsRetryable(error) {
        states := states[c := CLOSED];
        return;
      }
      state := state.(probe := false, failures := state.failures + 1);
      if state.failures >= CIRCUIT_FAILURE_THRESHOLD {
        state := state.(openedAt := Some(now));
      }
      states := states[c := state];
    }

    method ReleaseProbe(c: JobClass)
      modifies this
      ensures View() == old(View()).With(c, old(View()).Of(c).(probe := false))
    {
      if c in states {
        states := states[c := states[c].(probe := false)];
      }
    }
  }

  // ------------------------------------------- a breaker and its history

  /** What one class's breaker is told, in order. */
  datatype Event = Asked(at: int) | Success | Failure(error: JobErrorClass, at: int) | Released

  function React(b: Breaker, e: Event): Breaker {
    match e
    case Asked(at) => Ask(b, at)
    case Success => CLOSED
    case Failure(c, at) => Fail(b, c, at)
    case Released => b.(probe := false)
  }

  function After(h: seq<Event>): Breaker {
    if h == [] then CLOSED else React(After(h[..|h| - 1]), h[|h| - 1])
  }

  predicate IsOutcome(e: Event) {
    e.Success? || e.Failure?
  }

  /** The recorded outcomes alone. */
  function Outcomes(h: seq<Event>): seq<Event> {
    if h == [] then []
    else Outcomes(h[..|h| - 1]) + if IsOutcome(h[|h| - 1]) then [h[|h| - 1]] else []
  }

  predicate IsRetryableFailure(e: Event) {
    e.Failure? && IsRetryable(e.error)
  }

  /** The last `n` outcomes exist and are all retryable failures. */
  ghost predicate LastFailed(o: seq<Event>, n: nat) {
    n <= |o| && forall i :: |o| - n <= i < |o| ==> IsRetryableFailure(o[i])
  }

  /** A probe was granted at `i` and nothing has been recorded or released since. */
  ghost predicate ProbeFrom(h: seq<Event>, i: nat) {
    && i < |h| && h[i].Asked? && After(h[..i]).openedAt.Some? && Allows(After(h[..i]), h[i].at)
    && forall k :: i < k < |h| ==> h[k].Asked?
  }

  /** The breaker is its history: the failure count is the length of the run of
      retryable failures ending the outcomes; it is open exactly when that run is
      at least three long, since the last of them; and its probe flag is set
      exactly when a probe was granted and nothing reported since. */
  lemma {:induction false} BreakerIsItsHistory(h: seq<Event>)
    ensures forall n: nat :: LastFailed(Outcomes(h), n) <==> n <= After(h).failures
    ensures After(h).openedAt.Some? <==> LastFailed(Outcomes(h), 3)
    ensures After(h).probe ==> After(h).openedAt.Some?
    ensures After(h).openedAt.Some? ==> After(h).openedAt.value == Outcomes(h)[|Outcomes(h)| - 1].at
    ensures After(h).probe <==> exists i: nat :: ProbeFrom(h, i)
    decreases |h|
  {
    if h == [] {
      assert LastFailed(Outcomes(h), 0);
    } else {
      var before, e := h[..|h| - 1], h[|h| - 1];
      BreakerIsItsHistory(before);
      assert h == before + [e];
      assert Outcomes(h) == Outcomes(before) + if IsOutcome(e) then [e] else [];
      if IsOutcome(e) {
        forall n: nat ensures LastFailed(Outcomes(h), n) <==> n <= After(h).failures {
          if n > 0 {
            OutcomeLengthens(Outcomes(before), e, n - 1);
          }
        }
      } else {
        assert Outcomes(h) == Outcomes(before);
      }
      ProbeStep(before, e);
    }
  }

  lemma {:induction false} OutcomeLengthens(o: seq<Event>, e: Event, n: nat)
    ensures LastFailed(o + [e], n + 1) <==> IsRetryableFailure(e) && LastFailed(o, n)
  {
    assert (o + [e])[|o|] == e;
    assert forall i :: |o| - n <= i < |o| && i >= 0 ==> (o + [e])[i] == o[i];
  }

  lemma {:induction false} ProbeStep(before: seq<Event>, e: Event)
    requires After(before).probe <==> exists i: nat :: ProbeFrom(before, i)
    requires After(before).probe ==> After(before).openedAt.Some?
    ensures After(before + [e]).probe <==> exists i: nat :: ProbeFrom(before + [e], i)
  {
    var h, n := before + [e], |before|;
    assert h[..n] == before && After(h) == React(After(before), e);
    forall i: nat
      ensures ProbeFrom(h, i) <==> if i < n then ProbeFrom(before, i) && e.Asked? else i == n && ProbeFrom(h, n)
    {
      if i < n {
        ProbeEarlier(before, e, i);
      }
    }
    var granted := e.Asked? && After(before).openedAt.Some? && Allows(After(before), e.at);
    assert ProbeFrom(h, n) <==> granted;
    hide ProbeFrom; hide After;
    if After(h).probe && !granted {
      var i: nat :| ProbeFrom(before, i);
      ProbeIndex(before, i);
      assert ProbeFrom(h, i);
    }
  }

  lemma {:induction false} ProbeEarlier(before: seq<Event>, e: Event, i: nat)
    requires i < |before|
    ensures ProbeFrom(before + [e], i) <==> ProbeFrom(before, i) && e.Asked?
  {
    var h, n := before + [e], |before|;
    assert h[n] == e && before[..i] == h[..i] && before[i] == h[i];
    if ProbeFrom(h, i) {
      forall k | i < k < n ensures before[k].Asked? {
        assert h[k].Asked?;
      }
    }
  }

  lemma {:induction false} ProbeIndex(h: seq<Event>, i: nat)
    requires ProbeFrom(h, i)
    ensures i < |h|
  {
  }

  /** When a class may run, said of its history alone: always while fewer than three
      retryable failures end the outcomes; otherwise once 60 seconds have passed
      since the last outcome, and only one probe until something is reported. */
  lemma {:induction false} AllowedMeans(h: seq<Event>, now: int)
    ensures Allows(After(h), now) <==>
            || !LastFailed(Outcomes(h), 3)
            || (now - Outcomes(h)[|Outcomes(h)| - 1].at >= CIRCUIT_RECOVERY_SECONDS
               && !exists i: nat :: ProbeFrom(h, i))
  {
    BreakerIsItsHistory(h);
    hide ProbeFrom; hide After; hide Outcomes;
  }

  // ------------------------------------------------- the selection closure

  /** The closure `pop_next` is called with: the limits, then the breaker of the job's class. */
  predicate Selectable(r: Counters, limits: Limits, circuits: Circuits, now: int, job: Job) {
    CanStart(r, job, limits) && Allows(circuits.Of(ClassOf(job)), now)
  }

  function Eligible(r: Counters, limits: Limits, circuits: Circuits, now: int): Job -> bool {
    job => Selectable(r, limits, circuits, now, job)
  }

  /** The breakers after the closure has been run on these jobs in turn. */
  function Tested(r: Counters, limits: Limits, circuits: Circuits, now: int, jobs: seq<Job>): Circuits
    decreases |jobs|
  {
    if jobs == [] then circuits
    else
      var c := ClassOf(jobs[0]);
      var next := if CanStart(r, jobs[0], limits) then circuits.With(c, Ask(circuits.Of(c), now)) else circuits;
      Tested(r, limits, next, now, jobs[1..])
  }

  /** Selection stops at the first job accepted, so it marks at most one probe, that job's. */
  lemma {:induction false} SelectionMarksOneProbe(r: Counters, limits: Limits, circuits: Circuits, now: int,
          rejected: seq<Job>, job: Job)
    requires forall j :: j in rejected ==> !Selectable(r, limits, circuits, now, j)
    requires Selectable(r, limits, circuits, now, job)
    ensures Tested(r, limits, circuits, now, rejected) == circuits
    ensures Tested(r, limits, circuits, now, rejected + [job])
            == circuits.With(ClassOf(job), Ask(circuits.Of(ClassOf(job)), now))
    decreases |rejected|
  {
    if rejected == [] {
      assert [job][1..] == [];
    } else {
      assert rejected[0] in rejected;
      assert (rejected + [job])[1..] == rejected[1..] + [job];
      SelectionMarksOneProbe(r, limits, circuits, now, rejected[1..], job);
    }
  }
}
