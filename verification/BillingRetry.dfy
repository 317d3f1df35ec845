/**
 Retrying one billing attempt: creating the provider payment against a fixed deadline
 with doubling delays, then polling its status until a horizon. Times are nanoseconds.
 */
module BillingRetry {

  const SECOND: int := 1_000_000_000
  const DELAY_CAP: int := 30 * 60 * SECOND
  const CREATE_WINDOW: int := 23 * 60 * 60 * SECOND
  const PENDING_HORIZON: int := 7 * 24 * 60 * 60 * SECOND
  const MAX_DEFERRALS: nat := 90

  datatype Option<T> = None | Some(value: T)

  datatype Status = Prepared | Pending | ManualReview | Settled

  /** The stored attempt; `digest` is the first byte of the hash of its ID. */
  datatype Attempt = Attempt(
    status: Status, creates: nat, checks: nat, next: int,
    created: int, deadline: int, started: Option<int>, digest: nat)

  /** A new attempt, due at once and to be created within 23 hours. */
  function Fresh(created: int, digest: nat): Attempt {
    Attempt(Prepared, 0, 0, created, created, created + CREATE_WINDOW, None, digest)
  }

  // ---------- delays ----------

  function Pow2(n: nat): nat {
    if n == 0 then 1 else 2 * Pow2(n - 1)
  }

  function Doubling(steps: nat): int
    requires 1 <= steps
  {
    var delay := 30 * SECOND * Pow2(steps - 1);
    if delay > DELAY_CAP then DELAY_CAP else delay
  }

  /** billingRetryAt less now. */
  function CreateDelay(creates: nat): int {
    Doubling(if creates < 1 then 1 else if creates > 6 then 6 else creates)
  }

  /** billingStatusRetryAt less now: capped doubling plus up to a fifth of jitter. */
  function StatusDelay(checks: nat, digest: nat): int {
    var delay := Doubling(if checks + 1 > 10 then 10 else checks + 1);
    delay + digest % 21 * delay / 100
  }

  lemma Powers()
    ensures Pow2(0) == 1 && Pow2(1) == 2 && Pow2(2) == 4 && Pow2(3) == 8 && Pow2(4) == 16
    ensures Pow2(5) == 32 && Pow2(6) == 64 && Pow2(7) == 128 && Pow2(8) == 256 && Pow2(9) == 512
  {
    assert Pow2(3) == 8;
    assert Pow2(5) == 32;
    assert Pow2(7) == 128;
  }

  /** Create delays double from 30 s to 960 s; the half-hour cap is never met. */
  lemma CreateDelays(creates: nat)
    ensures CreateDelay(creates) ==
            (if creates <= 1 then 30 else if creates == 2 then 60 else if creates == 3 then 120
             else if creates == 4 then 240 else if creates == 5 then 480 else 960) * SECOND
  {
    Powers();
  }

  lemma {:induction false} JitterBounds(j: nat, delay: int)
    requires j <= 20 && delay >= 0
    ensures 0 <= j * delay / 100 && 5 * (j * delay / 100) <= delay
  {
    assert 0 <= j * delay <= 20 * delay by {
      assert (20 - j) * delay >= 0;
      assert j * delay + (20 - j) * delay == 20 * delay;
    }
  }

  lemma JitterIsExact(j: nat, hundredth: int)
    ensures j * (100 * hundredth) / 100 == j * hundredth
  {
    assert j * (100 * hundredth) == 100 * (j * hundredth);
  }

  /** The delay before jitter: doubling from 30 seconds to 16 minutes, then half an hour. */
  lemma DoublingDelays(checks: nat)
    ensures Doubling(if checks + 1 > 10 then 10 else checks + 1) ==
            (if checks == 0 then 30 else if checks == 1 then 60 else if checks == 2 then 120
             else if checks == 3 then 240 else if checks == 4 then 480 else if checks == 5 then 960
             else 1800) * 1_000_000_000
  {
    Powers();
  }

  /** Failed status checks are between 30 seconds and 36 minutes apart: the doubling delay and, by the
      digest, none to twenty hundredths of it. */
  lemma StatusDelays(checks: nat, digest: nat)
    ensures 30 * SECOND <= StatusDelay(checks, digest) <= 36 * 60 * SECOND
    ensures StatusDelay(checks, digest) ==
            (if checks == 0 then 30 else if checks == 1 then 60 else if checks == 2 then 120
             else if checks == 3 then 240 else if checks == 4 then 480 else if checks == 5 then 960
             else 1800) * 10_000_000 * (100 + digest % 21)
  {
    var hundredth :=
      (if checks == 0 then 30 else if checks == 1 then 60 else if checks == 2 then 120
       else if checks == 3 then 240 else if checks == 4 then 480 else if checks == 5 then 960
       else 1800) * 10_000_000;
    DoublingDelays(checks);
    JitterIsExact(digest % 21, hundredth);
    JitterBounds(digest % 21, 100 * hundredth);
  }

  // ---------- one visit of the worker ----------

  /** Ambiguous covers every error that is not a definite 4xx rejection; AttachFailed is
      an accepted payment whose local record could not be written. */
  datatype CreateOutcome = CreateAccepted | AttachFailed | Ambiguous | Rejected | Mismatched

  datatype CheckOutcome = Unavailable | StillPending | Concluded | Inconsistent | NotRecorded

  datatype Visit = Visit(now: int, create: CreateOutcome, check: CheckOutcome)

  function Reviewed(a: Attempt, now: int): Attempt {
    a.(status := ManualReview, next := now)
  }

  /** BeginBillingProviderCreate: the durable boundary before the provider is called. */
  function Begun(a: Attempt, now: int): Attempt {
    if now >= a.deadline then Reviewed(a, now)
    else a.(creates := a.creates + 1, started := if a.started.None? then Some(now) else a.started)
  }

  /** recordBillingCreateFailure for an outcome that stays unknown. */
  function CreateDeferred(a: Attempt, now: int): Attempt {
    var next := now + CreateDelay(a.creates);
    if next >= a.deadline then Reviewed(a, now) else a.(next := next)
  }

  function AfterCreate(a: Attempt, outcome: CreateOutcome, now: int): Attempt {
    match outcome
    case CreateAccepted => a.(status := Pending, checks := 0, next := now + 30 * SECOND)
    case AttachFailed => CreateDeferred(a, now)
    case Ambiguous => CreateDeferred(a, now)
    case Rejected => Reviewed(a, now)
    case Mismatched => Reviewed(a, now)
  }

  predicate HorizonExceeded(a: Attempt, now: int) {
    now >= (if a.started.Some? then a.started.value else a.created) + PENDING_HORIZON
  }

  function AfterCheck(a: Attempt, outcome: CheckOutcome, now: int): Attempt {
    if HorizonExceeded(a, now) then Reviewed(a, now)
    else
      match outcome
      case Unavailable => a.(next := now + StatusDelay(a.checks, a.digest), checks := a.checks + 1)
      case StillPending => a.(next := now + 5 * 60 * SECOND, checks := 0)
      case Concluded => a.(status := Settled)
      case Inconsistent => Reviewed(a, now)
      case NotRecorded => a
  }

  /** processBillingAttempt, for an attempt the worker may claim; others are left alone. */
  function Process(a: Attempt, v: Visit): Attempt {
    if v.now < a.next || a.status == ManualReview || a.status == Settled then a
    else if a.status == Pending then AfterCheck(a, v.check, v.now)
    else
      var begun := Begun(a, v.now);
      if begun.status != Prepared then begun
      else
        var made := AfterCreate(begun, v.create, v.now);
        if made.status == Pending then AfterCheck(made, v.check, v.now) else made
  }

  // ---------- the stored attempt as an object ----------

  /** The row behind one attempt; each method is one store transaction or, for the last,
      the worker's sequence of them. */
  class AttemptRow {
    var row: Attempt

    constructor (created: int, digest: nat)
      ensures row == Fresh(created, digest)
    {
      row := Fresh(created, digest);
    }

    method BeginCreate(now: int) returns (ok: bool)
      requires row.status == Prepared
      modifies this
      ensures row == Begun(old(row), now) && (ok <==> row.status == Prepared)
    {
      if now >= row.deadline {
        row := row.(status := ManualReview, next := now);
        return false;
      }
      row := row.(creates := row.creates + 1, started := if row.started.None? then Some(now) else row.started);
      return true;
    }

    method FailForReview(now: int)
      modifies this
      ensures row == Reviewed(old(row), now)
    {
      row := row.(status := ManualReview, next := now);
    }

    method Defer(next: int)
      modifies this
      ensures row == old(row).(next := next, checks := old(row).checks + (if old(row).status == Pending then 1 else 0))
    {
      row := row.(next := next, checks := row.checks + (if row.status == Pending then 1 else 0));
    }

    method RecordCreateFailure(rejected: bool, now: int)
      requires row.status == Prepared
      modifies this
      ensures row == if rejected then Reviewed(old(row), now) else CreateDeferred(old(row), now)
    {
      var next := now + CreateDelay(row.creates);
      if rejected || next >= row.deadline {
        FailForReview(now);
      } else {
        Defer(next);
      }
    }

    method CheckStatus(outcome: CheckOutcome, now: int)
      requires row.status == Pending
      modifies this
      ensures row == AfterCheck(old(row), outcome, now)
    {
      if HorizonExceeded(row, now) {
        FailForReview(now);
        return;
      }
      match outcome
      case Unavailable => Defer(now + StatusDelay(row.checks, row.digest));
      case StillPending => row := row.(next := now + 5 * 60 * SECOND, checks := 0);
      case Concluded => row := row.(status := Settled);
      case Inconsistent => FailForReview(now);
      case NotRecorded =>
    }

    method ProcessBillingAttempt(v: Visit)
      modifies this
      ensures row == Process(old(row), v)
    {
      if v.now < row.next { return; }
      if row.status == Prepared {
        var ok := BeginCreate(v.now);
        if !ok { return; }
        match v.create
        case CreateAccepted => row := row.(status := Pending, checks := 0, next := v.now + 30 * SECOND);
        case AttachFailed => RecordCreateFailure(false, v.now);
        case Ambiguous => RecordCreateFailure(false, v.now);
        case Rejected => RecordCreateFailure(true, v.now);
        case Mismatched => FailForReview(v.now);
      }
      if row.status == Pending {
        CheckStatus(v.check, v.now);
      }
    }
  }

  // ---------- runs ----------

  /** A visit, or one cut off by a crash after its create was begun and before its outcome was stored. */
  datatype Event = Visited(visit: Visit) | Crashed(now: int)

  function Step(a: Attempt, e: Event): Attempt {
    match e
    case Visited(v) => Process(a, v)
    case Crashed(now) => if now >= a.next && a.status == Prepared then Begun(a, now) else a
  }

  function After(a: Attempt, run: seq<Event>): Attempt {
    if run == [] then a else Step(After(a, run[..|run| - 1]), run[|run| - 1])
  }

  // ---------- how an attempt ends ----------

  /** A due step, cut off or not, that begins a create before the deadline. */
  predicate BeginsCreate(a: Attempt, e: Event) {
    var now := if e.Visited? then e.visit.now else e.now;
    a.status == Prepared && a.next <= now < a.deadline
  }

  /** The boundary of the first create of a run. */
  ghost function FirstCreate(a: Attempt, run: seq<Event>): Option<int> {
    if run == [] then None
    else
      var front, e := run[..|run| - 1], run[|run| - 1];
      if FirstCreate(a, front).None? && BeginsCreate(After(a, front), e)
      then Some(if e.Visited? then e.visit.now else e.now)
      else FirstCreate(a, front)
  }

  /** A due visit that asks the provider about a payment: a pending one, or one just accepted. */
  predicate Asks(a: Attempt, e: Event) {
    && e.Visited? && a.next <= e.visit.now
    && (a.status == Pending || (BeginsCreate(a, e) && e.visit.create == CreateAccepted))
  }

  /** ... within seven days of the first create. */
  ghost predicate AsksInTime(a: Attempt, first: Option<int>, e: Event) {
    Asks(a, e) && e.visit.now < (if first.Some? then first.value else e.visit.now) + 7 * 24 * 60 * 60 * SECOND
  }

  /** Due steps after which a person has to look. */
  ghost predicate NeedsReview(a: Attempt, first: Option<int>, e: Event) {
    var now := if e.Visited? then e.visit.now else e.now;
    || (a.status == Prepared && a.next <= now && a.deadline <= now)
    || (e.Visited? && BeginsCreate(a, e) && (e.visit.create == Rejected || e.visit.create == Mismatched))
    || (e.Visited? && BeginsCreate(a, e) && (e.visit.create == Ambiguous || e.visit.create == AttachFailed)
        && now + CreateDelay(a.creates + 1) >= a.deadline)
    || (Asks(a, e) && (!AsksInTime(a, first, e) || e.visit.check == Inconsistent))
  }

  lemma StartedIsFirstCreateStep(a: Attempt, first: Option<int>, e: Event)
    requires a.started == first
    ensures Step(a, e).started ==
            if first.None? && BeginsCreate(a, e) then Some(if e.Visited? then e.visit.now else e.now) else first
  {
  }

  lemma {:induction false} StartedIsFirstCreate(created: int, digest: nat, run: seq<Event>)
    ensures After(Fresh(created, digest), run).started == FirstCreate(Fresh(created, digest), run)
    ensures After(Fresh(created, digest), run).status == Pending ==> FirstCreate(Fresh(created, digest), run).Some?
  {
    if run != [] {
      var a, front := Fresh(created, digest), run[..|run| - 1];
      StartedIsFirstCreate(created, digest, front);
      StartedIsFirstCreateStep(After(a, front), FirstCreate(a, front), run[|run| - 1]);
    }
  }

  lemma StepDecides(a: Attempt, e: Event)
    requires a.status == Pending ==> a.started.Some?
    ensures Step(a, e).status == Settled <==>
              a.status == Settled || (AsksInTime(a, a.started, e) && e.visit.check == Concluded)
    ensures Step(a, e).status == ManualReview <==> a.status == ManualReview || NeedsReview(a, a.started, e)
  {
  }

  /** The i-th event finds the payment concluded in time. */
  ghost predicate SettlesAt(a: Attempt, run: seq<Event>, i: nat)
    requires i < |run|
  {
    && run[i].Visited? && run[i].visit.check == Concluded
    && AsksInTime(After(a, run[..i]), FirstCreate(a, run[..i]), run[i])
  }

  ghost predicate NeedsReviewAt(a: Attempt, run: seq<Event>, i: nat)
    requires i < |run|
  {
    NeedsReview(After(a, run[..i]), FirstCreate(a, run[..i]), run[i])
  }

  lemma LastDecides(created: int, digest: nat, run: seq<Event>)
    requires run != []
    ensures var a, last := Fresh(created, digest), |run| - 1;
            && (After(a, run).status == Settled <==>
                  After(a, run[..last]).status == Settled || SettlesAt(a, run, last))
            && (After(a, run).status == ManualReview <==>
                  After(a, run[..last]).status == ManualReview || NeedsReviewAt(a, run, last))
  {
    StartedIsFirstCreate(created, digest, run[..|run| - 1]);
    StepDecides(After(Fresh(created, digest), run[..|run| - 1]), run[|run| - 1]);
  }

  lemma SamePrefix(a: Attempt, run: seq<Event>, i: nat)
    requires i < |run| - 1
    ensures SettlesAt(a, run[..|run| - 1], i) <==> SettlesAt(a, run, i)
    ensures NeedsReviewAt(a, run[..|run| - 1], i) <==> NeedsReviewAt(a, run, i)
  {
    assert run[..|run| - 1][..i] == run[..i];
  }

  /** Main result: after any run an attempt is settled exactly if some due visit, within seven days
      of the first create, found its payment concluded. */
  lemma {:induction false} SettledExactly(created: int, digest: nat, run: seq<Event>)
    ensures After(Fresh(created, digest), run).status == Settled <==>
              exists i: nat :: i < |run| && SettlesAt(Fresh(created, digest), run, i)
  {
    if run != [] {
      var a, last := Fresh(created, digest), |run| - 1;
      SettledExactly(created, digest, run[..last]);
      LastDecides(created, digest, run);
      forall i: nat | i < last ensures SettlesAt(a, run[..last], i) <==> SettlesAt(a, run, i) {
        SamePrefix(a, run, i);
      }
    }
  }

  /** Main result: it is left to a person exactly if some due step came at or past the create
      deadline, was rejected, met a mismatch, would have been retried past the deadline, found the
      seven days over, or found an inconsistent payment. */
  lemma {:induction false} ReviewedExactly(created: int, digest: nat, run: seq<Event>)
    ensures After(Fresh(created, digest), run).status == ManualReview <==>
              exists i: nat :: i < |run| && NeedsReviewAt(Fresh(created, digest), run, i)
  {
    if run != [] {
      var a, last := Fresh(created, digest), |run| - 1;
      ReviewedExactly(created, digest, run[..last]);
      LastDecides(created, digest, run);
      forall i: nat | i < last ensures NeedsReviewAt(a, run[..last], i) <==> NeedsReviewAt(a, run, i) {
        SamePrefix(a, run, i);
      }
    }
  }

  // ---------- the deferrals of a create ----------

  /** A create left ambiguous and put off to a later visit. */
  predicate Defers(a: Attempt, e: Event) {
    a.status == Prepared && e.Visited? && Step(a, e).status == Prepared && Step(a, e).next != a.next
  }

  function Deferrals(a: Attempt, run: seq<Event>): nat {
    if run == [] then 0
    else Deferrals(a, run[..|run| - 1]) + (if Defers(After(a, run[..|run| - 1]), run[|run| - 1]) then 1 else 0)
  }

  /** The least time n deferrals take. */
  function Backoff(n: nat): int {
    if n == 0 then 0 else Backoff(n - 1) + CreateDelay(n)
  }

  lemma CreateDelayGrows(m: nat, n: nat)
    requires m <= n
    ensures CreateDelay(m) <= CreateDelay(n)
  {
    CreateDelays(m);
    CreateDelays(n);
  }

  lemma {:induction false} BackoffFromFive(n: nat)
    requires n >= 5
    ensures Backoff(n) == (930 + 960 * (n - 5)) * SECOND
  {
    CreateDelays(n);
    if n == 5 {
      CreateDelays(1); CreateDelays(2); CreateDelays(3); CreateDelays(4);
      assert Backoff(2) == 90 * SECOND;
      assert Backoff(4) == 450 * SECOND;
    } else {
      BackoffFromFive(n - 1);
    }
  }

  lemma {:induction false} BackoffGrows(m: nat, n: nat)
    requires m <= n
    ensures Backoff(m) <= Backoff(n)
  {
    if m < n {
      CreateDelays(n);
      BackoffGrows(m, n - 1);
    }
  }

  /** What holds of a prepared attempt: its k deferrals took at least Backoff(k), and the
      next visit lies before the deadline. */
  ghost predicate OnSchedule(a: Attempt, origin: Attempt, deferrals: nat) {
    && a.deadline == origin.deadline && a.created == origin.created && a.digest == origin.digest
    && (a.status == Prepared ==>
          a.creates >= deferrals && a.next >= origin.next + Backoff(deferrals) && a.next < a.deadline)
  }

  lemma StepStaysOnSchedule(a: Attempt, origin: Attempt, k: nat, e: Event)
    requires OnSchedule(a, origin, k)
    ensures OnSchedule(Step(a, e), origin, if Defers(a, e) then k + 1 else k)
  {
    if Defers(a, e) {
      assert Begun(a, e.visit.now).creates == a.creates + 1;
      CreateDelayGrows(k + 1, a.creates + 1);
    }
  }

  lemma {:induction false} RunStaysOnSchedule(origin: Attempt, run: seq<Event>)
    requires origin.status == Prepared && origin.next < origin.deadline
    ensures OnSchedule(After(origin, run), origin, Deferrals(origin, run))
  {
    if run != [] {
      var front := run[..|run| - 1];
      RunStaysOnSchedule(origin, front);
      StepStaysOnSchedule(After(origin, front), origin, Deferrals(origin, front), run[|run| - 1]);
    }
  }

  lemma {:induction false} DeferralsFit(origin: Attempt, run: seq<Event>)
    requires origin.status == Prepared && origin.deadline - origin.next <= CREATE_WINDOW
    requires origin.next < origin.deadline
    ensures Deferrals(origin, run) <= MAX_DEFERRALS
  {
    if run != [] {
      DeferralsFit(origin, run[..|run| - 1]);
      RunStaysOnSchedule(origin, run);
      if Deferrals(origin, run) > MAX_DEFERRALS {
        BackoffFromFive(91);
        BackoffGrows(91, Deferrals(origin, run));
      }
    }
  }

  /** However the worker is scheduled and wherever it crashes, an attempt is put off at most
      ninety times, each time to before its deadline. */
  lemma CreateChainEnds(created: int, digest: nat, run: seq<Event>)
    ensures Deferrals(Fresh(created, digest), run) <= MAX_DEFERRALS
    ensures After(Fresh(created, digest), run).status == Prepared ==>
              After(Fresh(created, digest), run).next < created + CREATE_WINDOW
  {
    RunStaysOnSchedule(Fresh(created, digest), run);
    DeferralsFit(Fresh(created, digest), run);
  }

  /** A deferral moves the next visit at least 30 seconds ahead. */
  lemma DeferralsAreSpaced(a: Attempt, e: Event)
    requires Defers(a, e)
    ensures e.visit.now + 30 * SECOND <= Step(a, e).next < a.deadline
    ensures Step(a, e).next - e.visit.now == CreateDelay(a.creates + 1)
  {
    CreateDelays(a.creates + 1);
  }

  /** Ambiguous failures, each the moment it is due. */
  function PromptFailures(created: int, digest: nat, n: nat): seq<Event> {
    if n == 0 then []
    else
      var run := PromptFailures(created, digest, n - 1);
      run + [Visited(Visit(After(Fresh(created, digest), run).next, Ambiguous, Unavailable))]
  }

  /** The attempt after n prompt deferrals. */
  function DeferredTimes(created: int, digest: nat, n: nat): Attempt {
    Fresh(created, digest).(
      creates := n, next := created + Backoff(n), started := if n == 0 then None else Some(created))
  }

  /** The room the deadline leaves: ninety deferrals take less than the create window. */
  lemma PromptRoom(n: nat)
    requires n < MAX_DEFERRALS
    ensures 0 <= Backoff(n) < CREATE_WINDOW
    ensures Backoff(n + 1) == Backoff(n) + CreateDelay(n + 1) < CREATE_WINDOW
    ensures CreateDelay(n + 1) > 0
  {
    BackoffFromFive(MAX_DEFERRALS);
    BackoffGrows(n + 1, MAX_DEFERRALS);
    BackoffGrows(0, n);
    CreateDelays(n + 1);
  }

  lemma AmbiguousInTime(a: Attempt)
    requires a.status == Prepared && a.next + CreateDelay(a.creates + 1) < a.deadline
    requires CreateDelay(a.creates + 1) > 0
    ensures Process(a, Visit(a.next, Ambiguous, Unavailable)) ==
            a.(creates := a.creates + 1, next := a.next + CreateDelay(a.creates + 1),
               started := if a.started.None? then Some(a.next) else a.started)
  {
  }

  lemma PromptStep(created: int, digest: nat, n: nat)
    requires n < MAX_DEFERRALS
    ensures var a := DeferredTimes(created, digest, n);
            var e := Visited(Visit(a.next, Ambiguous, Unavailable));
            Step(a, e) == DeferredTimes(created, digest, n + 1) && Defers(a, e)
  {
    PromptRoom(n);
    AmbiguousInTime(DeferredTimes(created, digest, n));
  }

  lemma AfterAppend(a: Attempt, run: seq<Event>, e: Event)
    ensures After(a, run + [e]) == Step(After(a, run), e)
    ensures Deferrals(a, run + [e]) == Deferrals(a, run) + (if Defers(After(a, run), e) then 1 else 0)
  {
    assert (run + [e])[..|run|] == run;
  }

  lemma {:induction false} PromptFailuresReach(created: int, digest: nat, n: nat)
    requires n <= MAX_DEFERRALS
    ensures var a, run := Fresh(created, digest), PromptFailures(created, digest, n);
            Deferrals(a, run) == n && After(a, run) == DeferredTimes(created, digest, n)
  {
    if n > 0 {
      var a, run := Fresh(created, digest), PromptFailures(created, digest, n - 1);
      PromptFailuresReach(created, digest, n - 1);
      PromptStep(created, digest, n - 1);
      AfterAppend(a, run, Visited(Visit(After(a, run).next, Ambiguous, Unavailable)));
    }
  }

  /** The bound is met: after ninety prompt deferrals the next failure goes to manual review. */
  lemma NinetyDeferralsHappen(created: int, digest: nat)
    ensures var a, run := Fresh(created, digest), PromptFailures(created, digest, MAX_DEFERRALS);
            && Deferrals(a, run) == MAX_DEFERRALS && After(a, run).status == Prepared
            && Process(After(a, run), Visit(After(a, run).next, Ambiguous, Unavailable)).status == ManualReview
  {
    PromptFailuresReach(created, digest, MAX_DEFERRALS);
    BackoffFromFive(MAX_DEFERRALS);
    CreateDelays(91);
  }

  // ---------- how many visits an attempt can take ----------

  /** A visit that is due and stores what it learned. */
  ghost predicate Recorded(a: Attempt, e: Event) {
    && e.Visited? && a.next <= e.visit.now
    && (a.status == Prepared || (a.status == Pending && e.visit.check != NotRecorded))
  }

  ghost function RecordedVisits(a: Attempt, run: seq<Event>): nat {
    if run == [] then 0
    else RecordedVisits(a, run[..|run| - 1]) + (if Recorded(After(a, run[..|run| - 1]), run[|run| - 1]) then 1 else 0)
  }

  predicate Open(a: Attempt) { a.status == Prepared || a.status == Pending }

  /** Amounts of seven and a half seconds. */
  function Units(n: int): int { n * 7_500_000_000 }

  /** The cheapest polling answers three failed checks with one success: four visits in 510
      seconds, 17 units each. A state is worth what its next visits fall short of that price. */
  function Credit(a: Attempt): int {
    match a.status
    case Prepared => if a.creates == 0 then -36 else if a.creates == 1 then -23 else if a.creates == 2 then -14 else -13
    case Pending =>
      if a.checks == 0 then 0 else if a.checks == 1 then 13 else if a.checks == 2 then 22
      else if a.checks == 3 then 23 else if a.checks == 4 then 8 else 0
    case _ => 0
  }

  lemma StatusDelaysGrow(checks: nat, digest: nat)
    ensures StatusDelay(checks, digest) >=
            (if checks == 0 then 30 else if checks == 1 then 60 else if checks == 2 then 120
             else if checks == 3 then 240 else if checks == 4 then 480 else 960) * SECOND
    ensures checks <= 2 && digest % 21 == 0 ==>
              StatusDelay(checks, digest) == (if checks == 0 then 30 else if checks == 1 then 60 else 120) * SECOND
  {
    Powers();
    var steps := if checks + 1 > 10 then 10 else checks + 1;
    JitterBounds(digest % 21, Doubling(steps));
  }

  lemma CheckEarns(a: Attempt, outcome: CheckOutcome, now: int)
    requires a.status == Pending && outcome != NotRecorded && Open(AfterCheck(a, outcome, now))
    ensures AfterCheck(a, outcome, now).next - now >= Units(17 + Credit(a) - Credit(AfterCheck(a, outcome, now)))
  {
    StatusDelaysGrow(a.checks, a.digest);
  }

  /** Every recorded visit that leaves the attempt open pays 17 units, in delay or in credit. */
  lemma VisitEarns(a: Attempt, v: Visit)
    requires Recorded(a, Visited(v)) && Open(Process(a, v))
    ensures Process(a, v).next - v.now >= Units(17 + Credit(a) - Credit(Process(a, v)))
  {
    if a.status == Pending {
      CheckEarns(a, v.check, v.now);
    } else {
      var made := AfterCreate(Begun(a, v.now), v.create, v.now);
      CreateDelays(a.creates + 1);
      if made.status == Pending && v.check != NotRecorded { CheckEarns(made, v.check, v.now); }
    }
  }

  ghost predicate Sane(a: Attempt) {
    && a.deadline == a.created + CREATE_WINDOW
    && (a.started.Some? ==> a.created <= a.started.value < a.deadline)
    && (a.status == Prepared ==> a.next >= a.created)
    && (a.status == Pending ==> a.started.Some?)
  }

  /** The instant an attempt is charged from: the boundary of its first create. */
  function StartOf(a: Attempt, now: int): int { if a.started.Some? then a.started.value else now }

  lemma CreateStaysSane(a: Attempt, v: Visit)
    requires Sane(a) && a.status == Prepared && a.next <= v.now < a.deadline
    ensures var made := AfterCreate(Begun(a, v.now), v.create, v.now);
            Sane(made) && made.started == Some(StartOf(a, v.now)) && made.next >= v.now
  {
    CreateDelays(a.creates + 1);
  }

  /** A check that leaves the attempt polled finds it inside the horizon. */
  lemma CheckStaysSane(a: Attempt, outcome: CheckOutcome, now: int)
    requires Sane(a) && a.status == Pending
    ensures Sane(AfterCheck(a, outcome, now)) && AfterCheck(a, outcome, now).started == a.started
    ensures AfterCheck(a, outcome, now).status == Pending ==> now < a.started.value + PENDING_HORIZON
  {
  }

  lemma VisitStaysSane(a: Attempt, v: Visit)
    requires Sane(a) && Recorded(a, Visited(v))
    ensures var b := Process(a, v);
            Sane(b) && (Open(b) ==> b.started == Some(StartOf(a, v.now)) && v.now < b.started.value + PENDING_HORIZON)
  {
    if a.status == Pending {
      CheckStaysSane(a, v.check, v.now);
    } else if v.now < a.deadline {
      CreateStaysSane(a, v);
      var made := AfterCreate(Begun(a, v.now), v.create, v.now);
      if made.status == Pending { CheckStaysSane(made, v.check, v.now); }
    }
  }

  lemma StepStaysSane(a: Attempt, e: Event)
    requires Sane(a)
    ensures Sane(Step(a, e))
  {
    if Recorded(a, e) { VisitStaysSane(a, e.visit); }
  }

  // ---------- under any clock ----------

  const ANY_CLOCK_VISITS: nat := 5397

  ghost predicate PaidFor(a: Attempt, visits: nat) {
    && visits <= ANY_CLOCK_VISITS + 1
    && (Open(a) ==> visits <= ANY_CLOCK_VISITS && Units(17 * visits) <= a.next - a.created + Units(Credit(a) + 36))
  }

  lemma StepIsPaidFor(a: Attempt, e: Event, visits: nat)
    requires Sane(a) && PaidFor(a, visits)
    ensures PaidFor(Step(a, e), if Recorded(a, e) then visits + 1 else visits)
  {
    var b := Step(a, e);
    if Recorded(a, e) && Open(b) {
      assert e.visit.now < a.deadline + PENDING_HORIZON by { VisitStaysSane(a, e.visit); }
      assert b.created == a.created && -36 <= Credit(a) <= 23;
      assert b.next - e.visit.now >= Units(17 + Credit(a) - Credit(b)) by { VisitEarns(a, e.visit); }
    }
  }

  lemma {:induction false} RunIsPaidFor(created: int, digest: nat, run: seq<Event>)
    ensures var a := Fresh(created, digest); Sane(After(a, run)) && PaidFor(After(a, run), RecordedVisits(a, run))
  {
    if run != [] {
      var front, a := run[..|run| - 1], Fresh(created, digest);
      RunIsPaidFor(created, digest, front);
      StepStaysSane(After(a, front), run[|run| - 1]);
      StepIsPaidFor(After(a, front), run[|run| - 1], RecordedVisits(a, front));
    }
  }

  /** No attempt keeps the worker busy forever, whatever the outcomes and the clock. */
  lemma EveryAttemptComesToRest(created: int, digest: nat, run: seq<Event>)
    ensures RecordedVisits(Fresh(created, digest), run) <= ANY_CLOCK_VISITS + 1
  {
    RunIsPaidFor(created, digest, run);
  }

  // ---------- under a clock that does not go back ----------

  function ClockOf(e: Event): int { if e.Visited? then e.visit.now else e.now }

  ghost predicate ClockMovesForward(run: seq<Event>) {
    forall i, j :: 0 <= i < j < |run| ==> ClockOf(run[i]) <= ClockOf(run[j])
  }

  const MOST_VISITS: nat := 4748

  function Later(a: int, b: int): int { if a < b then b else a }

  ghost predicate PaidInTime(a: Attempt, clock: int, visits: nat) {
    && visits <= MOST_VISITS
    && (Open(a) ==> visits < MOST_VISITS)
    && (Open(a) && a.started.None? ==> visits == 0)
    && (Open(a) && a.started.Some? ==>
          && a.started.value <= clock
          && Units(17 * visits) <= Later(a.next, clock) - a.started.value + Units(Credit(a) + 36))
  }

  /** What is paid before a visit within the horizon leaves room for it. */
  lemma RoomForVisit(a: Attempt, v: Visit, clock: int, visits: nat)
    requires Sane(a) && PaidInTime(a, clock, visits) && clock <= v.now && Recorded(a, Visited(v))
    requires v.now < StartOf(a, v.now) + PENDING_HORIZON
    ensures visits <= MOST_VISITS - 2
    ensures Units(17 * visits) <= v.now - StartOf(a, v.now) + Units(Credit(a) + 36)
  {
    assert -36 <= Credit(a) <= 23;
  }

  lemma VisitIsPaidInTime(a: Attempt, v: Visit, clock: int, visits: nat)
    requires Sane(a) && PaidInTime(a, clock, visits) && clock <= v.now && Recorded(a, Visited(v))
    ensures PaidInTime(Process(a, v), v.now, visits + 1)
  {
    var b := Process(a, v);
    if Open(b) {
      assert b.started == Some(StartOf(a, v.now)) && v.now < StartOf(a, v.now) + PENDING_HORIZON by {
        VisitStaysSane(a, v);
      }
      RoomForVisit(a, v, clock, visits);
      assert b.next - v.now >= Units(17 + Credit(a) - Credit(b)) by { VisitEarns(a, v); }
    }
  }

  lemma StepIsPaidInTime(a: Attempt, e: Event, clock: int, visits: nat)
    requires Sane(a) && PaidInTime(a, clock, visits) && clock <= ClockOf(e)
    ensures PaidInTime(Step(a, e), ClockOf(e), if Recorded(a, e) then visits + 1 else visits)
  {
    if Recorded(a, e) { VisitIsPaidInTime(a, e.visit, clock, visits); }
  }

  lemma {:induction false} RunIsPaidInTime(created: int, digest: nat, run: seq<Event>)
    requires ClockMovesForward(run)
    ensures var a := Fresh(created, digest);
            PaidInTime(After(a, run), if run == [] then created else ClockOf(run[|run| - 1]), RecordedVisits(a, run))
  {
    if run != [] {
      var front, a, e := run[..|run| - 1], Fresh(created, digest), run[|run| - 1];
      RunIsPaidInTime(created, digest, front);
      RunIsPaidFor(created, digest, front);
      if front == [] {
        assert PaidInTime(a, ClockOf(e), 0);
        StepIsPaidInTime(a, e, ClockOf(e), 0);
      } else {
        StepIsPaidInTime(After(a, front), e, ClockOf(front[|front| - 1]), RecordedVisits(a, front));
      }
    }
  }

  /** Under a clock that does not go back no attempt takes more than 4748 visits. */
  lemma VisitsAreBounded(created: int, digest: nat, run: seq<Event>)
    requires ClockMovesForward(run)
    ensures RecordedVisits(Fresh(created, digest), run) <= MOST_VISITS
  {
    RunIsPaidInTime(created, digest, run);
  }

  // ---------- the bound is met ----------

  /** n recorded visits, each the moment it was due, bring a new attempt to a. */
  ghost predicate Prompt(created: int, digest: nat, run: seq<Event>, a: Attempt, n: nat) {
    && After(Fresh(created, digest), run) == a && RecordedVisits(Fresh(created, digest), run) == n
    && ClockMovesForward(run) && (run == [] || ClockOf(run[|run| - 1]) <= a.next)
  }

  ghost predicate Reaches(created: int, digest: nat, a: Attempt, n: nat) {
    exists run :: Prompt(created, digest, run, a, n)
  }

  lemma VisitExtends(a: Attempt, run: seq<Event>, v: Visit)
    requires ClockMovesForward(run) && (run == [] || ClockOf(run[|run| - 1]) <= v.now)
    ensures ClockMovesForward(run + [Visited(v)])
    ensures After(a, run + [Visited(v)]) == Process(After(a, run), v)
    ensures RecordedVisits(a, run + [Visited(v)]) ==
            RecordedVisits(a, run) + (if Recorded(After(a, run), Visited(v)) then 1 else 0)
  {
    assert (run + [Visited(v)])[..|run|] == run;
  }

  lemma VisitLeads(created: int, digest: nat, a: Attempt, n: nat, v: Visit)
    requires Reaches(created, digest, a, n) && v.now == a.next <= Process(a, v).next && Recorded(a, Visited(v))
    ensures Reaches(created, digest, Process(a, v), n + 1)
  {
    var run :| Prompt(created, digest, run, a, n);
    var longer := run + [Visited(v)];
    VisitExtends(Fresh(created, digest), run, v);
    assert Prompt(created, digest, longer, Process(a, v), n + 1);
  }

  /** An attempt accepted at its fourth create, polled without jitter. */
  function Polled(created: int, digest: nat, checks: nat, next: int): Attempt {
    Attempt(Pending, 4, checks, next, created, created + CREATE_WINDOW, Some(created), digest)
  }

  lemma DeferralLeads(created: int, digest: nat, n: nat)
    requires n < MAX_DEFERRALS && Reaches(created, digest, DeferredTimes(created, digest, n), n)
    ensures Reaches(created, digest, DeferredTimes(created, digest, n + 1), n + 1)
  {
    var a := DeferredTimes(created, digest, n);
    PromptRoom(n);
    PromptStep(created, digest, n);
    VisitLeads(created, digest, a, n, Visit(a.next, Ambiguous, Unavailable));
  }

  lemma ThreeDeferrals()
    ensures Backoff(3) == 210 * SECOND
  {
    CreateDelays(1); CreateDelays(2); CreateDelays(3);
    assert Backoff(1) == 30 * SECOND;
  }

  lemma FourthIsAccepted(created: int, digest: nat)
    ensures Process(DeferredTimes(created, digest, 3), Visit(created + 210 * SECOND, CreateAccepted, NotRecorded)) ==
            Polled(created, digest, 0, created + 240 * SECOND)
  {
    ThreeDeferrals();
  }

  lemma AcceptanceLeads(created: int, digest: nat)
    requires Reaches(created, digest, DeferredTimes(created, digest, 3), 3)
    ensures Reaches(created, digest, Polled(created, digest, 0, created + 240 * SECOND), 4)
  {
    ThreeDeferrals();
    FourthIsAccepted(created, digest);
    VisitLeads(created, digest, DeferredTimes(created, digest, 3), 3,
               Visit(created + 210 * SECOND, CreateAccepted, NotRecorded));
  }

  lemma FourCreatesLead(created: int, digest: nat)
    ensures Reaches(created, digest, Polled(created, digest, 0, created + 240 * SECOND), 4)
  {
    assert Prompt(created, digest, [], DeferredTimes(created, digest, 0), 0);
    for n: nat := 0 to 3
      invariant Reaches(created, digest, DeferredTimes(created, digest, n), n)
    {
      DeferralLeads(created, digest, n);
    }
    AcceptanceLeads(created, digest);
  }

  lemma FailureLeads(created: int, digest: nat, checks: nat, next: int, n: nat)
    requires digest % 21 == 0 && checks <= 2 && next < created + PENDING_HORIZON
    requires Reaches(created, digest, Polled(created, digest, checks, next), n)
    ensures var delay := (if checks == 0 then 30 else if checks == 1 then 60 else 120) * SECOND;
            Reaches(created, digest, Polled(created, digest, checks + 1, next + delay), n + 1)
  {
    StatusDelaysGrow(checks, digest);
    VisitLeads(created, digest, Polled(created, digest, checks, next), n, Visit(next, Ambiguous, Unavailable));
  }

  lemma AnswerLeads(created: int, digest: nat, checks: nat, next: int, n: nat)
    requires next < created + PENDING_HORIZON && Reaches(created, digest, Polled(created, digest, checks, next), n)
    ensures Reaches(created, digest, Polled(created, digest, 0, next + 300 * SECOND), n + 1)
  {
    VisitLeads(created, digest, Polled(created, digest, checks, next), n, Visit(next, Ambiguous, StillPending));
  }

  lemma ThreeFailuresLead(created: int, digest: nat, next: int, n: nat)
    requires digest % 21 == 0 && next + 90 * SECOND < created + PENDING_HORIZON
    requires Reaches(created, digest, Polled(created, digest, 0, next), n)
    ensures Reaches(created, digest, Polled(created, digest, 3, next + 210 * SECOND), n + 3)
  {
    FailureLeads(created, digest, 0, next, n);
    FailureLeads(created, digest, 1, next + 30 * SECOND, n + 1);
    FailureLeads(created, digest, 2, next + 90 * SECOND, n + 2);
  }

  /** One round of polling: an answer and three failures. */
  lemma RoundLeads(created: int, digest: nat, next: int, n: nat)
    requires digest % 21 == 0 && next + 390 * SECOND < created + PENDING_HORIZON
    requires Reaches(created, digest, Polled(created, digest, 3, next), n)
    ensures Reaches(created, digest, Polled(created, digest, 3, next + 510 * SECOND), n + 4)
  {
    AnswerLeads(created, digest, 3, next, n);
    ThreeFailuresLead(created, digest, next + 300 * SECOND, n + 1);
  }

  lemma {:induction false} RoundsLead(created: int, digest: nat, next: int, n: nat, rounds: nat)
    requires digest % 21 == 0 && next + (510 * rounds - 120) * SECOND < created + PENDING_HORIZON
    requires Reaches(created, digest, Polled(created, digest, 3, next), n)
    ensures Reaches(created, digest, Polled(created, digest, 3, next + 510 * rounds * SECOND), n + 4 * rounds)
  {
    if rounds > 0 {
      RoundsLead(created, digest, next, n, rounds - 1);
      RoundLeads(created, digest, next + 510 * (rounds - 1) * SECOND, n + 4 * (rounds - 1));
    }
  }

  /** Prompt visits meet the bound when the digest adds no jitter: four creates, then rounds of
      polling up to the horizon, where the last visit gives up. */
  lemma MostVisitsHappen(created: int, digest: nat)
    requires digest % 21 == 0
    ensures exists run :: ClockMovesForward(run) && RecordedVisits(Fresh(created, digest), run) == MOST_VISITS
  {
    FourCreatesLead(created, digest);
    ThreeFailuresLead(created, digest, created + 240 * SECOND, 4);
    RoundsLead(created, digest, created + 450 * SECOND, 7, 1184);
    AnswerLeads(created, digest, 3, created + 604_290 * SECOND, 4743);
    ThreeFailuresLead(created, digest, created + 604_590 * SECOND, 4744);
    var a := Polled(created, digest, 3, created + 604_800 * SECOND);
    VisitLeads(created, digest, a, 4747, Visit(a.next, Ambiguous, Unavailable));
    var run :| Prompt(created, digest, run, Process(a, Visit(a.next, Ambiguous, Unavailable)), MOST_VISITS);
  }
}
