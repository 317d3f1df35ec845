/**
 The discoverable-channel refresh gate: per user a cooldown and an in-flight flag, kept in
 a map that is swept at most once per cooldown. Times are nanoseconds.
 */
module RefreshGate {

  type User = string

  const SECOND: int := 1_000_000_000
  const COOLDOWN: int := 15 * SECOND

  datatype Option<T> = None | Some(value: T)

  datatype Entry = Entry(inFlight: bool, retryAt: int)

  datatype State = State(entries: map<User, Entry>, lastSweep: Option<int>)

  datatype Answer = Granted | Refused(retryAfter: int)

  // ---------- the gate as functions ----------

  predicate SweepDue(last: Option<int>, now: int) {
    last.None? || now < last.value || now - last.value >= COOLDOWN
  }

  /** An entry that refuses nobody. */
  predicate Spent(e: Entry, now: int) { !e.inFlight && now >= e.retryAt }

  function Swept(entries: map<User, Entry>, now: int): map<User, Entry> {
    map u | u in entries && !Spent(entries[u], now) :: entries[u]
  }

  function RetryAfter(e: Entry, now: int): int {
    if e.retryAt - now <= 0 then SECOND else e.retryAt - now
  }

  function Decide(entries: map<User, Entry>, user: User, now: int): Answer {
    if user in entries && (entries[user].inFlight || now < entries[user].retryAt)
    then Refused(RetryAfter(entries[user], now)) else Granted
  }

  function Entered(entries: map<User, Entry>, user: User, now: int): map<User, Entry> {
    if Decide(entries, user, now) == Granted then entries[user := Entry(true, now + COOLDOWN)] else entries
  }

  function Begun(s: State, user: User, now: int): State {
    if SweepDue(s.lastSweep, now) then State(Entered(Swept(s.entries, now), user, now), Some(now))
    else s.(entries := Entered(s.entries, user, now))
  }

  function AnswerTo(s: State, user: User, now: int): Answer {
    Decide(if SweepDue(s.lastSweep, now) then Swept(s.entries, now) else s.entries, user, now)
  }

  function Landed(entries: map<User, Entry>, user: User): map<User, Entry> {
    if user in entries then entries[user := entries[user].(inFlight := false)] else entries
  }

  // ---------- the gate as an object ----------

  class DiscoverableRefreshGate {
    var entries: map<User, Entry>
    var lastSweep: Option<int>

    function Value(): State
      reads this
    {
      State(entries, lastSweep)
    }

    constructor ()
      ensures Value() == State(map[], None)
    {
      entries, lastSweep := map[], None;
    }

    method Sweep(now: int)
      modifies this
      ensures Value() == State(Swept(old(entries), now), Some(now))
    {
      var rest := entries.Keys;
      while rest != {}
        invariant rest <= entries.Keys
        invariant forall u :: u in entries <==> u in old(entries) && (u in rest || !Spent(old(entries)[u], now))
        invariant forall u :: u in entries ==> entries[u] == old(entries)[u]
        decreases rest
      {
        var owner :| owner in rest;
        if Spent(entries[owner], now) { entries := entries - {owner}; }
        rest := rest - {owner};
      }
      lastSweep := Some(now);
    }

    method Begin(user: User, now: int) returns (answer: Answer)
      modifies this
      ensures Value() == Begun(old(Value()), user, now)
      ensures answer == AnswerTo(old(Value()), user, now)
    {
      if SweepDue(lastSweep, now) { Sweep(now); }
      if user in entries && (entries[user].inFlight || now < entries[user].retryAt) {
        var retryAfter := entries[user].retryAt - now;
        return Refused(if retryAfter <= 0 then SECOND else retryAfter);
      }
      entries := entries[user := Entry(true, now + COOLDOWN)];
      return Granted;
    }

    method Finish(user: User)
      modifies this
      ensures Value() == old(Value()).(entries := Landed(old(entries), user))
    {
      if user in entries { entries := entries[user := entries[user].(inFlight := false)]; }
    }
  }

  // ---------- runs ----------

  datatype Event = Ask(user: User, now: int) | Finish(user: User)

  function Step(s: State, e: Event): State {
    match e
    case Ask(u, now) => Begun(s, u, now)
    case Finish(u) => s.(entries := Landed(s.entries, u))
  }

  /** The same map, never swept. */
  function StepUnswept(entries: map<User, Entry>, e: Event): map<User, Entry> {
    match e
    case Ask(u, now) => Entered(entries, u, now)
    case Finish(u) => Landed(entries, u)
  }

  function Follow(s: State, run: seq<Event>): State
    decreases |run|
  {
    if run == [] then s else Follow(Step(s, run[0]), run[1..])
  }

  function Answers(s: State, run: seq<Event>): seq<Answer>
    decreases |run|
  {
    if run == [] then []
    else (if run[0].Ask? then [AnswerTo(s, run[0].user, run[0].now)] else []) + Answers(Step(s, run[0]), run[1..])
  }

  function AnswersUnswept(entries: map<User, Entry>, run: seq<Event>): seq<Answer>
    decreases |run|
  {
    if run == [] then []
    else (if run[0].Ask? then [Decide(entries, run[0].user, run[0].now)] else []) +
         AnswersUnswept(StepUnswept(entries, run[0]), run[1..])
  }

  predicate ClockMovesForward(run: seq<Event>, since: int)
    decreases |run|
  {
    run != [] ==>
      if run[0].Ask? then run[0].now >= since && ClockMovesForward(run[1..], run[0].now)
      else ClockMovesForward(run[1..], since)
  }

  // ---------- sweeping is invisible ----------

  /** The swept map lacks nothing but spent entries. */
  ghost predicate Agree(swept: map<User, Entry>, full: map<User, Entry>, now: int) {
    && (forall u :: u in swept ==> u in full && full[u] == swept[u])
    && (forall u :: u in full && u !in swept ==> Spent(full[u], now))
  }

  lemma StepsAgree(s: State, full: map<User, Entry>, e: Event, since: int)
    requires Agree(s.entries, full, since) && (e.Ask? ==> e.now >= since)
    ensures Agree(Step(s, e).entries, StepUnswept(full, e), if e.Ask? then e.now else since)
    ensures e.Ask? ==> AnswerTo(s, e.user, e.now) == Decide(full, e.user, e.now)
  {
  }

  /** Under a clock that does not go back, the swept gate answers every request, retry times
      included, like one that keeps all entries. */
  lemma {:induction false} SweepIsInvisible(s: State, full: map<User, Entry>, run: seq<Event>, since: int)
    requires Agree(s.entries, full, since) && ClockMovesForward(run, since)
    ensures Answers(s, run) == AnswersUnswept(full, run)
    decreases |run|
  {
    if run != [] {
      StepsAgree(s, full, run[0], since);
      SweepIsInvisible(Step(s, run[0]), StepUnswept(full, run[0]), run[1..], if run[0].Ask? then run[0].now else since);
    }
  }

  lemma GateAnswersLikeUnswept(run: seq<Event>, since: int)
    requires ClockMovesForward(run, since)
    ensures Answers(State(map[], None), run) == AnswersUnswept(map[], run)
  {
    SweepIsInvisible(State(map[], None), map[], run, since);
  }

  /** A clock that goes back after a sweep can let a user start again within the cooldown. */
  lemma BackwardClockIsVisible(u: User, v: User)
    requires u != v
    ensures var run := [Ask(u, 0), Finish(u), Ask(v, COOLDOWN), Ask(u, SECOND)];
            Answers(State(map[], None), run) != AnswersUnswept(map[], run)
  {
    var run := [Ask(u, 0), Finish(u), Ask(v, COOLDOWN), Ask(u, SECOND)];
    var s0 := State(map[], None);
    var s1 := Step(s0, run[0]);
    var s2 := Step(s1, run[1]);
    var s3 := Step(s2, run[2]);
    var f2 := StepUnswept(StepUnswept(map[], run[0]), run[1]);
    var f3 := StepUnswept(f2, run[2]);
    assert run[1..][1..] == run[2..] && run[2..][1..] == run[3..] && run[3..][1..] == [];
    assert Answers(s0, run) == [Granted] + Answers(s2, run[2..]);
    assert Answers(s2, run[2..]) == [Granted] + Answers(s3, run[3..]);
    assert u !in s3.entries && Answers(s3, run[3..]) == [Granted];
    assert AnswersUnswept(map[], run) == [Granted] + AnswersUnswept(f2, run[2..]);
    assert AnswersUnswept(f2, run[2..]) == [Granted] + AnswersUnswept(f3, run[3..]);
    assert f3[u] == Entry(false, COOLDOWN) && AnswersUnswept(f3, run[3..]) == [Refused(14 * SECOND)];
    assert Answers(s0, run)[2] == Granted;
    assert AnswersUnswept(map[], run)[2] == Refused(14 * SECOND);
  }

  /** Right after a sweep the map holds only users with a refresh in flight or cooling down. */
  lemma SweepLeavesOnlyActive(s: State, user: User, now: int)
    requires SweepDue(s.lastSweep, now)
    ensures var t := Begun(s, user, now);
            forall u :: u in t.entries <==>
              (u == user && AnswerTo(s, user, now) == Granted) || (u in s.entries && !Spent(s.entries[u], now))
    ensures forall u :: u in Begun(s, user, now).entries ==> !Spent(Begun(s, user, now).entries[u], now)
  {
  }

  /** The retry time of a refusal is positive, and exact for a user who is only cooling down. */
  lemma RetryAfterIsExact(s: State, user: User, now: int, later: int)
    requires AnswerTo(s, user, now).Refused? && later >= now
    ensures AnswerTo(s, user, now).retryAfter > 0
    ensures user in s.entries
    ensures !s.entries[user].inFlight ==>
              (Decide(s.entries, user, later) == Granted <==> later >= now + AnswerTo(s, user, now).retryAfter)
  {
  }

  // ---------- refreshes of one user ----------

  /** Refreshes of a user that were granted and have not finished, counted from the answers alone. */
  function Running(s: State, run: seq<Event>, u: User, running: nat): nat
    decreases |run|
  {
    if run == [] then running
    else Running(Step(s, run[0]), run[1..], u, Counted(s, run[0], u, running))
  }

  function Counted(s: State, e: Event, u: User, running: nat): nat {
    match e
    case Ask(v, now) => if v == u && AnswerTo(s, v, now) == Granted then running + 1 else running
    case Finish(v) => if v == u && running > 0 then running - 1 else running
  }

  ghost predicate CountsFlight(s: State, u: User, running: nat) {
    running == if u in s.entries && s.entries[u].inFlight then 1 else 0
  }

  /** Granted refreshes of one user never overlap, whatever the clock does. */
  lemma {:induction false} RefreshesNeverOverlap(s: State, run: seq<Event>, u: User, running: nat)
    requires CountsFlight(s, u, running)
    ensures Running(s, run, u, running) <= 1
    ensures CountsFlight(Follow(s, run), u, Running(s, run, u, running))
    decreases |run|
  {
    if run != [] {
      RefreshesNeverOverlap(Step(s, run[0]), run[1..], u, Counted(s, run[0], u, running));
    }
  }

  /** When the refreshes of one user started. */
  function Starts(s: State, run: seq<Event>, u: User): seq<int>
    decreases |run|
  {
    if run == [] then []
    else (if run[0].Ask? && run[0].user == u && AnswerTo(s, u, run[0].now) == Granted then [run[0].now] else []) +
         Starts(Step(s, run[0]), run[1..], u)
  }

  /** Before `open` the user cannot start: the entry says so, or time has passed it. */
  ghost predicate ClosedUntil(s: State, u: User, open: int, now: int) {
    (u in s.entries && s.entries[u].retryAt >= open) || open <= now
  }

  predicate Spaced(starts: seq<int>, open: int) {
    && (forall i :: 0 <= i < |starts| ==> starts[i] >= open)
    && (forall i, j :: 0 <= i < j < |starts| ==> starts[j] - starts[i] >= COOLDOWN)
  }

  /** Refreshes of one user start at least the cooldown apart. */
  lemma {:induction false} RefreshesAreSpaced(s: State, run: seq<Event>, u: User, open: int, since: int)
    requires ClosedUntil(s, u, open, since) && ClockMovesForward(run, since)
    ensures Spaced(Starts(s, run, u), open)
    decreases |run|
  {
    if run != [] {
      var e, t := run[0], Step(s, run[0]);
      if e.Ask? && e.user == u && AnswerTo(s, u, e.now) == Granted {
        RefreshesAreSpaced(t, run[1..], u, e.now + COOLDOWN, e.now);
        var later := Starts(t, run[1..], u);
        assert Starts(s, run, u) == [e.now] + later;
        assert e.now >= open;
      } else {
        var now := if e.Ask? then e.now else since;
        assert ClosedUntil(t, u, open, now);
        RefreshesAreSpaced(t, run[1..], u, open, now);
        assert Starts(s, run, u) == Starts(t, run[1..], u);
      }
    }
  }

  lemma GateSpacesRefreshes(run: seq<Event>, u: User, since: int)
    requires ClockMovesForward(run, since)
    ensures Spaced(Starts(State(map[], None), run, u), since)
    ensures Running(State(map[], None), run, u, 0) <= 1
  {
    RefreshesAreSpaced(State(map[], None), run, u, since, since);
    RefreshesNeverOverlap(State(map[], None), run, u, 0);
  }

  /** When the user's last refresh was granted. */
  function LastStart(s: State, run: seq<Event>, u: User, last: Option<int>): Option<int>
    decreases |run|
  {
    if run == [] then last
    else
      var e := run[0];
      LastStart(Step(s, e), run[1..], u,
                if e.Ask? && e.user == u && AnswerTo(s, u, e.now) == Granted then Some(e.now) else last)
  }

  /** The clock after a run. */
  function Clock(run: seq<Event>, since: int): int
    decreases |run|
  {
    if run == [] then since else Clock(run[1..], if run[0].Ask? then run[0].now else since)
  }

  ghost predicate Remembers(s: State, u: User, last: Option<int>, running: nat, now: int) {
    if u in s.entries then
      last.Some? && s.entries[u] == Entry(running == 1, last.value + COOLDOWN) && running <= 1
    else running == 0 && (last.Some? ==> last.value + COOLDOWN <= now)
  }

  lemma StepRemembers(s: State, e: Event, u: User, last: Option<int>, running: nat, now: int)
    requires Remembers(s, u, last, running, now) && (e.Ask? ==> e.now >= now)
    ensures Remembers(Step(s, e), u,
                      if e.Ask? && e.user == u && AnswerTo(s, u, e.now) == Granted then Some(e.now) else last,
                      Counted(s, e, u, running), if e.Ask? then e.now else now)
  {
  }

  lemma {:induction false} RunRemembers(s: State, run: seq<Event>, u: User, last: Option<int>, running: nat, now: int)
    requires Remembers(s, u, last, running, now) && ClockMovesForward(run, now)
    ensures Remembers(Follow(s, run), u, LastStart(s, run, u, last), Running(s, run, u, running), Clock(run, now))
    decreases |run|
  {
    if run != [] {
      var e := run[0];
      StepRemembers(s, e, u, last, running, now);
      RunRemembers(Step(s, e), run[1..], u,
                   if e.Ask? && e.user == u && AnswerTo(s, u, e.now) == Granted then Some(e.now) else last,
                   Counted(s, e, u, running), if e.Ask? then e.now else now);
    }
  }

  /** Main result: after any run under a clock that does not go back, a user is granted a refresh
      exactly if none of his is running and his last one started at least 15 seconds ago. */
  lemma GrantedExactly(run: seq<Event>, u: User, since: int, now: int)
    requires ClockMovesForward(run, since) && now >= Clock(run, since)
    ensures var s, start := Follow(State(map[], None), run), LastStart(State(map[], None), run, u, None);
            AnswerTo(s, u, now) == Granted <==>
              Running(State(map[], None), run, u, 0) == 0 && (start.Some? ==> now - start.value >= 15_000_000_000)
  {
    RunRemembers(State(map[], None), run, u, None, 0, since);
  }

  /** A request sweeps exactly when there was no sweep in the 15 seconds up to it, so that one
      always lies in them afterwards. */
  lemma SweepsExactly(s: State, u: User, now: int)
    ensures var last := Begun(s, u, now).lastSweep;
            && last.Some? && last.value <= now < last.value + 15_000_000_000
            && (s.lastSweep.Some? && s.lastSweep.value <= now < s.lastSweep.value + 15_000_000_000 ==>
                  last == s.lastSweep)
            && (last != s.lastSweep ==> last == Some(now))
  {
  }
}
