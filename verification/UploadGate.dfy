/**
 The media upload gate: a channel of global slots and a mutex-guarded count per
 user, each changed in its own atomic step, under every interleaving of calls.
 */
module UploadGate {

  type User = string
  type CallId = nat

  datatype Limits = Limits(global: int, user: int)

  /** newMediaUploadGate: both limits at least one, the user limit at most the global one. */
  function Clamped(global: int, user: int): (l: Limits)
    ensures 1 <= l.user <= l.global
    ensures if global >= 1 then l.global == global else l.global == 1
    ensures 1 <= user <= l.global ==> l.user == user
    ensures user < 1 ==> l.user == 1
    ensures user > l.global ==> l.user == l.global
  {
    var g := if global <= 0 then 1 else global;
    var u := if user <= 0 then 1 else user;
    Limits(g, if u > g then g else u)
  }

  /** The gate's own state: slots taken in the channel, and the map of users. */
  datatype Gate = Gate(occupied: int, users: map<User, int>)

  function CountOf(users: map<User, int>, u: User): int {
    if u in users then users[u] else 0
  }

  // ---------- the atomic steps as functions ----------

  function Sent(g: Gate): Gate { g.(occupied := g.occupied + 1) }

  function Received(g: Gate): Gate { g.(occupied := g.occupied - 1) }

  function Entered(g: Gate, u: User): Gate { g.(users := g.users[u := CountOf(g.users, u) + 1]) }

  function Left(g: Gate, u: User): Gate {
    if CountOf(g.users, u) <= 1 then g.(users := g.users - {u})
    else g.(users := g.users[u := CountOf(g.users, u) - 1])
  }

  // ---------- the gate as an object ----------

  class MediaUploadGate {
    const limits: Limits
    var occupied: int
    var users: map<User, int>

    function State(): Gate
      reads this
    {
      Gate(occupied, users)
    }

    constructor (globalLimit: int, userLimit: int)
      ensures limits == Clamped(globalLimit, userLimit) && State() == Gate(0, map[])
    {
      limits := Clamped(globalLimit, userLimit);
      occupied, users := 0, map[];
    }

    /** The non-blocking send on the channel. */
    method TrySend() returns (ok: bool)
      modifies this
      ensures ok <==> old(occupied) < limits.global
      ensures State() == if ok then Sent(old(State())) else old(State())
    {
      ok := occupied < limits.global;
      if ok { occupied := occupied + 1; }
    }

    /** The receive from the channel, enabled only while a slot is taken. */
    method Receive()
      requires occupied > 0
      modifies this
      ensures State() == Received(old(State()))
    {
      occupied := occupied - 1;
    }

    /** The first mutex section: refuse a user at the limit, count any other. */
    method Enter(user: User) returns (ok: bool)
      modifies this
      ensures ok <==> CountOf(old(users), user) < limits.user
      ensures State() == if ok then Entered(old(State()), user) else old(State())
    {
      if CountOf(users, user) >= limits.user {
        return false;
      }
      users := users[user := CountOf(users, user) + 1];
      return true;
    }

    /** The mutex section of the release closure. */
    method Leave(user: User)
      modifies this
      ensures State() == Left(old(State()), user)
    {
      if CountOf(users, user) <= 1 {
        users := users - {user};
      } else {
        users := users[user := CountOf(users, user) - 1];
      }
    }

    /** tryAcquire without interference: a grant takes a slot and a place, a refusal nothing. */
    method TryAcquire(user: User) returns (granted: bool)
      requires occupied >= 0
      modifies this
      ensures granted <==> old(occupied) < limits.global && CountOf(old(users), user) < limits.user
      ensures State() == if granted then Entered(Sent(old(State())), user) else old(State())
    {
      var sent := TrySend();
      if !sent { return false; }
      granted := Enter(user);
      if !granted { Receive(); }
    }

    /** The release closure without interference undoes its grant. */
    method Release(user: User)
      requires occupied > 0
      modifies this
      ensures State() == Received(Left(old(State()), user))
    {
      Leave(user);
      Receive();
    }
  }

  /** Releasing right after a grant restores the gate. */
  lemma ReleaseUndoesGrant(g: Gate, u: User)
    requires u in g.users ==> g.users[u] >= 1
    ensures Received(Left(Entered(Sent(g), u), u)) == g
  {
    var entered := Entered(Sent(g), u);
    if u in g.users {
      assert entered.users[u := g.users[u]] == g.users;
    } else {
      assert entered.users - {u} == g.users;
    }
  }

  // ---------- all interleavings ----------

  /** Where one call of tryAcquire, and then its release closure, stands. */
  datatype Phase =
    | HasSlot(user: User)     // slot taken, mutex not yet entered
    | TurnedAway(user: User)  // over the user limit, slot still held
    | Granted(user: User)
    | Leaving(user: User)     // uncounted, slot still held
    | Finished

  datatype Event =
    | Take(call: CallId, user: User)
    | Decide(call: CallId)
    | GiveBack(call: CallId)
    | Release(call: CallId)

  datatype World = World(gate: Gate, calls: map<CallId, Phase>)

  const START := World(Gate(0, map[]), map[])

  /** One atomic step; a step whose moment has not come, or a repeated release, changes nothing. */
  function Step(l: Limits, w: World, e: Event): World {
    match e
    case Take(c, u) =>
      if c in w.calls || w.gate.occupied >= l.global then w
      else World(Sent(w.gate), w.calls[c := HasSlot(u)])
    case Decide(c) =>
      if c !in w.calls || !w.calls[c].HasSlot? then w
      else
        var u := w.calls[c].user;
        if CountOf(w.gate.users, u) >= l.user then w.(calls := w.calls[c := TurnedAway(u)])
        else World(Entered(w.gate, u), w.calls[c := Granted(u)])
    case GiveBack(c) =>
      if c !in w.calls || !(w.calls[c].TurnedAway? || w.calls[c].Leaving?) || w.gate.occupied <= 0 then w
      else World(Received(w.gate), w.calls[c := Finished])
    case Release(c) =>
      if c !in w.calls || !w.calls[c].Granted? then w
      else World(Left(w.gate, w.calls[c].user), w.calls[c := Leaving(w.calls[c].user)])
  }

  function After(l: Limits, run: seq<Event>): World {
    if run == [] then START else Step(l, After(l, run[..|run| - 1]), run[|run| - 1])
  }

  /** Calls between taking a slot and giving it back. */
  ghost function Holders(calls: map<CallId, Phase>): set<CallId> {
    set c | c in calls && !calls[c].Finished?
  }

  /** Live grants of one user that have not been uncounted. */
  ghost function Grants(calls: map<CallId, Phase>, u: User): set<CallId> {
    set c | c in calls && calls[c] == Granted(u)
  }

  ghost predicate Accounted(l: Limits, w: World) {
    && w.gate.occupied == |Holders(w.calls)|
    && w.gate.occupied <= l.global
    && (forall u :: CountOf(w.gate.users, u) == |Grants(w.calls, u)|)
    && (forall u :: u in w.gate.users ==> 1 <= w.gate.users[u] <= l.user)
  }

  lemma HoldersAfter(calls: map<CallId, Phase>, c: CallId, p: Phase)
    ensures Holders(calls[c := p]) == if p.Finished? then Holders(calls) - {c} else Holders(calls) + {c}
  {
  }

  lemma HolderCounts(calls: map<CallId, Phase>, c: CallId, p: Phase)
    ensures |Holders(calls[c := p])| ==
            |Holders(calls)| + (if p.Finished? then if c in Holders(calls) then -1 else 0
                                else if c in Holders(calls) then 0 else 1)
  {
    HoldersAfter(calls, c, p);
    assert c in Holders(calls) ==> Holders(calls) + {c} == Holders(calls);
  }

  lemma GrantsAfter(calls: map<CallId, Phase>, c: CallId, p: Phase, u: User)
    ensures Grants(calls[c := p], u) ==
            if p == Granted(u) then Grants(calls, u) + {c} else Grants(calls, u) - {c}
  {
  }

  lemma GrantCounts(calls: map<CallId, Phase>, c: CallId, p: Phase, u: User)
    ensures |Grants(calls[c := p], u)| ==
            |Grants(calls, u)| + (if p == Granted(u) && c !in Grants(calls, u) then 1
                                  else if p != Granted(u) && c in Grants(calls, u) then -1 else 0)
  {
    GrantsAfter(calls, c, p, u);
  }

  lemma StepKeepsCount(l: Limits, w: World, e: Event, u: User)
    requires 1 <= l.user <= l.global && CountOf(w.gate.users, u) == |Grants(w.calls, u)|
    requires u in w.gate.users ==> 1 <= w.gate.users[u] <= l.user
    ensures var w' := Step(l, w, e);
            && CountOf(w'.gate.users, u) == |Grants(w'.calls, u)|
            && (u in w'.gate.users ==> 1 <= w'.gate.users[u] <= l.user)
  {
    var w' := Step(l, w, e);
    if w' != w { GrantCounts(w.calls, e.call, w'.calls[e.call], u); }
  }

  lemma StepKeepsSlots(l: Limits, w: World, e: Event)
    requires w.gate.occupied == |Holders(w.calls)| <= l.global
    ensures Step(l, w, e).gate.occupied == |Holders(Step(l, w, e).calls)| <= l.global
  {
    var w' := Step(l, w, e);
    if w' != w { HolderCounts(w.calls, e.call, w'.calls[e.call]); }
  }

  lemma StepKeepsAccounts(l: Limits, w: World, e: Event)
    requires 1 <= l.user <= l.global && Accounted(l, w)
    ensures Accounted(l, Step(l, w, e))
  {
    StepKeepsSlots(l, w, e);
    forall u
      ensures CountOf(Step(l, w, e).gate.users, u) == |Grants(Step(l, w, e).calls, u)|
      ensures u in Step(l, w, e).gate.users ==> 1 <= Step(l, w, e).gate.users[u] <= l.user
    {
      StepKeepsCount(l, w, e, u);
    }
  }

  /** In every interleaving the two counters account for exactly the calls in progress. */
  lemma {:induction false} GateIsAccounted(l: Limits, run: seq<Event>)
    requires 1 <= l.user <= l.global
    ensures Accounted(l, After(l, run))
  {
    if run == [] {
      assert Holders(START.calls) == {};
      assert forall u :: Grants(START.calls, u) == {};
    } else {
      GateIsAccounted(l, run[..|run| - 1]);
      StepKeepsAccounts(l, After(l, run[..|run| - 1]), run[|run| - 1]);
    }
  }

  lemma {:induction false} UsersAtMostHolders(users: set<User>, calls: map<CallId, Phase>, held: set<CallId>)
    requires forall u :: u in users ==> Grants(calls, u) != {} && Grants(calls, u) <= held
    ensures |users| <= |held|
    decreases |users|
  {
    if u :| u in users {
      var c :| c in Grants(calls, u);
      forall v | v in users - {u} ensures Grants(calls, v) <= held - {c} {
        assert c !in Grants(calls, v);
      }
      UsersAtMostHolders(users - {u}, calls, held - {c});
    }
  }

  /** The user map never grows beyond the slots taken, hence never beyond the channel. */
  lemma UserMapIsBounded(l: Limits, run: seq<Event>)
    requires 1 <= l.user <= l.global
    ensures |After(l, run).gate.users| <= After(l, run).gate.occupied <= l.global
  {
    GateIsAccounted(l, run);
    var w := After(l, run);
    forall u | u in w.gate.users.Keys ensures Grants(w.calls, u) != {} && Grants(w.calls, u) <= Holders(w.calls) {
      assert CountOf(w.gate.users, u) == |Grants(w.calls, u)|;
    }
    UsersAtMostHolders(w.gate.users.Keys, w.calls, Holders(w.calls));
  }

  /** The receive that gives a slot back never blocks: a slot is there to be taken out. */
  lemma GivingBackNeverBlocks(l: Limits, run: seq<Event>, c: CallId)
    requires 1 <= l.user <= l.global
    requires c in After(l, run).calls
    requires After(l, run).calls[c].TurnedAway? || After(l, run).calls[c].Leaving?
    ensures After(l, run).gate.occupied > 0
    ensures After(l, run + [GiveBack(c)]).calls[c] == Finished
  {
    GateIsAccounted(l, run);
    assert c in Holders(After(l, run).calls);
    assert (run + [GiveBack(c)])[..|run|] == run;
  }

  /** Once no call is in progress the gate is as new. */
  lemma QuiescentGateIsEmpty(l: Limits, run: seq<Event>)
    requires 1 <= l.user <= l.global
    requires forall c :: c in After(l, run).calls ==> After(l, run).calls[c].Finished?
    ensures After(l, run).gate == Gate(0, map[])
  {
    GateIsAccounted(l, run);
    UserMapIsBounded(l, run);
    assert Holders(After(l, run).calls) == {};
  }

  lemma AfterOneMore(l: Limits, run: seq<Event>, e: Event)
    ensures After(l, run + [e]) == Step(l, After(l, run), e)
  {
    assert (run + [e])[..|run|] == run;
  }

  /** The release closure of a call has run: it is giving its slot back, or has done so. */
  predicate Released(w: World, c: CallId) {
    c in w.calls && (w.calls[c].Leaving? || w.calls[c].Finished?)
  }

  lemma {:induction false} ReleasedStays(l: Limits, run: seq<Event>, more: seq<Event>, c: CallId)
    requires Released(After(l, run), c)
    ensures Released(After(l, run + more), c)
    decreases |more|
  {
    if more == [] {
      assert run + more == run;
    } else {
      var front := more[..|more| - 1];
      ReleasedStays(l, run, front, c);
      assert run + more == (run + front) + [more[|more| - 1]];
      AfterOneMore(l, run + front, more[|more| - 1]);
    }
  }

  /** Once a grant has been released, every further release of it changes nothing, however the
      run went on in between: before its slot is given back, after that, and ever after. */
  lemma ReleaseHappensOnce(l: Limits, run: seq<Event>, more: seq<Event>, c: CallId)
    requires c in After(l, run).calls && After(l, run).calls[c].Granted?
    ensures var later := run + [Release(c)] + more;
            After(l, later + [Release(c)]) == After(l, later)
  {
    AfterOneMore(l, run, Release(c));
    ReleasedStays(l, run + [Release(c)], more, c);
    AfterOneMore(l, run + [Release(c)] + more, Release(c));
  }

  /** A call that waits for nobody is granted exactly when the calls in progress leave room. */
  lemma GrantedExactlyWithRoom(l: Limits, run: seq<Event>, c: CallId, u: User)
    requires 1 <= l.user <= l.global && c !in After(l, run).calls
    ensures var w, w' := After(l, run), After(l, run + [Take(c, u), Decide(c)]);
            (c in w'.calls && w'.calls[c] == Granted(u)) <==>
              |Holders(w.calls)| < l.global && |Grants(w.calls, u)| < l.user
  {
    GateIsAccounted(l, run);
    AfterOneMore(l, run, Take(c, u));
    assert run + [Take(c, u), Decide(c)] == (run + [Take(c, u)]) + [Decide(c)];
    AfterOneMore(l, run + [Take(c, u)], Decide(c));
    assert CountOf(After(l, run).gate.users, u) == |Grants(After(l, run).calls, u)|;
  }
}
