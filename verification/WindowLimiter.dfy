/**
 The keyed window limiter: a global fixed window and a bounded, pruned map of
 per-key windows. Times and durations are nanoseconds.
 */
module WindowLimiter {
  import opened Ordered

  type Key = string

  const SECOND: int := 1_000_000_000

  datatype Limits = Limits(perKey: int, global: int, maxKeys: int, window: int)

  /** Unset is Go's zero time; only the global window ever is. */
  datatype Window = Unset | Window(start: int, count: int)

  datatype State = State(global: Window, perKey: map<Key, Window>)

  datatype Decision = Allowed | Limited(retryAfter: int)

  // ---------- the limiter as functions ----------

  predicate Expired(w: Window, now: int, length: int) {
    w.Unset? || now < w.start || now - w.start >= length
  }

  function Current(w: Window, now: int, length: int): (c: Window)
    ensures c.Window?
  {
    if Expired(w, now, length) then Window(now, 0) else w
  }

  /** Go's Duration.Round on a positive duration: to the nearest second, halves up. */
  function RoundToSecond(d: int): int {
    var rest := d % SECOND;
    if rest + rest < SECOND then d - rest else d - rest + SECOND
  }

  function RetryAfter(w: Window, now: int, length: int): int
    requires w.Window?
  {
    var left := length - (now - w.start);
    RoundToSecond(if left < SECOND then SECOND else left)
  }

  function Live(perKey: map<Key, Window>, now: int, length: int): map<Key, Window> {
    map k | k in perKey && !Expired(perKey[k], now, length) :: perKey[k]
  }

  function Pruned(l: Limits, perKey: map<Key, Window>, now: int): map<Key, Window> {
    if |perKey| < l.maxKeys then perKey else Live(perKey, now, l.window)
  }

  function Counted(w: Window): Window
    requires w.Window?
  {
    w.(count := w.count + 1)
  }

  function Allow(l: Limits, s: State, key: Key, now: int): (State, Decision) {
    var global := Current(s.global, now, l.window);
    if global.count >= l.global then
      (State(global, s.perKey), Limited(RetryAfter(global, now, l.window)))
    else if l.perKey <= 0 then
      (State(Counted(global), s.perKey), Allowed)
    else if key in s.perKey then
      var client := Current(s.perKey[key], now, l.window);
      if client.count >= l.perKey then
        (State(global, s.perKey[key := client]), Limited(RetryAfter(client, now, l.window)))
      else
        (State(Counted(global), s.perKey[key := Counted(client)]), Allowed)
    else
      var perKey := Pruned(l, s.perKey, now);
      (State(Counted(global), if |perKey| < l.maxKeys then perKey[key := Window(now, 1)] else perKey), Allowed)
  }

  // ---------- the limiter as an object ----------

  class KeyedWindowLimiter {
    const limits: Limits
    var global: Window
    var perKey: map<Key, Window>

    function Value(): State
      reads this
    {
      State(global, perKey)
    }

    constructor (limits: Limits)
      ensures this.limits == limits && Value() == State(Unset, map[])
    {
      this.limits := limits;
      global, perKey := Unset, map[];
    }

    method PruneExpired(now: int)
      modifies this`perKey
      ensures perKey == Pruned(limits, old(perKey), now)
    {
      if |perKey| < limits.maxKeys { return; }
      var rest := perKey.Keys;
      while rest != {}
        invariant rest <= perKey.Keys
        invariant forall k :: k in perKey <==>
          k in old(perKey) && (k in rest || !Expired(old(perKey)[k], now, limits.window))
        invariant forall k :: k in perKey ==> perKey[k] == old(perKey)[k]
        decreases rest
      {
        var key :| key in rest;
        if Expired(perKey[key], now, limits.window) {
          perKey := perKey - {key};
        }
        rest := rest - {key};
      }
    }

    method AllowKey(key: Key, now: int) returns (d: Decision)
      modifies this
      ensures (Value(), d) == Allow(limits, old(Value()), key, now)
    {
      global := Current(global, now, limits.window);
      if global.count >= limits.global {
        return Limited(RetryAfter(global, now, limits.window));
      }
      var client, tracked := Unset, false;
      if limits.perKey > 0 {
        tracked := key in perKey;
        if tracked {
          client := Current(perKey[key], now, limits.window);
          if client.count >= limits.perKey {
            perKey := perKey[key := client];
            return Limited(RetryAfter(client, now, limits.window));
          }
        } else {
          PruneExpired(now);
          if |perKey| < limits.maxKeys {
            client, tracked := Window(now, 0), true;
          }
        }
      }
      global := Counted(global);
      if tracked {
        perKey := perKey[key := Counted(client)];
      }
      return Allowed;
    }
  }

  // ---------- runs ----------

  datatype Request = Request(key: Key, now: int)

  ghost predicate ClockMovesForward(run: seq<Request>) {
    forall i, j :: 0 <= i < j < |run| ==> run[i].now <= run[j].now
  }

  function After(l: Limits, run: seq<Request>): State {
    if run == [] then State(Unset, map[])
    else Allow(l, After(l, run[..|run| - 1]), run[|run| - 1].key, run[|run| - 1].now).0
  }

  /** The decision on the last request. */
  function Verdict(l: Limits, run: seq<Request>): Decision
    requires run != []
  {
    Allow(l, After(l, run[..|run| - 1]), run[|run| - 1].key, run[|run| - 1].now).1
  }

  lemma RoundedIsClose(d: int)
    requires d >= 0
    ensures RoundToSecond(d) % SECOND == 0 && -SECOND < 2 * (RoundToSecond(d) - d) <= SECOND
  {
  }

  /** The window that refused the last request. */
  function Refusing(l: Limits, run: seq<Request>): Window
    requires run != [] && Verdict(l, run).Limited?
  {
    var s := After(l, run);
    if s.global.count >= l.global then s.global else s.perKey[run[|run| - 1].key]
  }

  /** A refusal's retry time is in whole seconds and within half a second of what the refusing
      window has left, or of one second when it has less. */
  lemma RetryAfterIsClose(l: Limits, run: seq<Request>)
    requires run != [] && Verdict(l, run).Limited?
    ensures Refusing(l, run).Window?
    ensures var d := Verdict(l, run).retryAfter;
            var left := Refusing(l, run).start + l.window - run[|run| - 1].now;
            && d % SECOND == 0 && d >= SECOND
            && -SECOND < 2 * (d - (if left < SECOND then SECOND else left)) <= SECOND
  {
    var left := Refusing(l, run).start + l.window - run[|run| - 1].now;
    RoundedIsClose(if left < SECOND then SECOND else left);
  }

  lemma LivePart(perKey: map<Key, Window>, now: int, length: int)
    ensures |Live(perKey, now, length)| <= |perKey|
  {
    CardinalityOfSubset(Live(perKey, now, length).Keys, perKey.Keys);
  }

  lemma CardinalityOfSubset<T>(a: set<T>, b: set<T>)
    requires a <= b
    ensures |a| <= |b|
  {
    assert b == a + (b - a);
  }

  lemma InsertSize(perKey: map<Key, Window>, key: Key, w: Window)
    ensures |perKey[key := w]| == if key in perKey then |perKey| else |perKey| + 1
  {
    assert perKey[key := w].Keys == perKey.Keys + {key};
    if key in perKey { assert perKey[key := w].Keys == perKey.Keys; }
  }

  lemma StepKeepsMapBounded(l: Limits, s: State, key: Key, now: int)
    requires |s.perKey| <= l.maxKeys
    ensures |Allow(l, s, key, now).0.perKey| <= l.maxKeys
  {
    var client := Current(if key in s.perKey then s.perKey[key] else Unset, now, l.window);
    InsertSize(s.perKey, key, client);
    InsertSize(s.perKey, key, Counted(client));
    InsertSize(Pruned(l, s.perKey, now), key, Window(now, 1));
    LivePart(s.perKey, now, l.window);
  }

  /** The per-key map never holds more than maxKeys entries. */
  lemma {:induction false} MapIsBounded(l: Limits, run: seq<Request>)
    requires l.maxKeys >= 0
    ensures |After(l, run).perKey| <= l.maxKeys
  {
    if run != [] {
      MapIsBounded(l, run[..|run| - 1]);
      StepKeepsMapBounded(l, After(l, run[..|run| - 1]), run[|run| - 1].key, run[|run| - 1].now);
    }
  }

  // ---------- compared with an unbounded limiter that never prunes ----------

  /** The same limiter with a map that takes every key and forgets none. */
  function AllowUnbounded(l: Limits, s: State, key: Key, now: int): (State, Decision) {
    var global := Current(s.global, now, l.window);
    var client := Current(if key in s.perKey then s.perKey[key] else Unset, now, l.window);
    if global.count >= l.global then
      (State(global, s.perKey), Limited(RetryAfter(global, now, l.window)))
    else if l.perKey <= 0 then
      (State(Counted(global), s.perKey), Allowed)
    else if client.count >= l.perKey then
      (State(global, s.perKey[key := client]), Limited(RetryAfter(client, now, l.window)))
    else
      (State(Counted(global), s.perKey[key := Counted(client)]), Allowed)
  }

  function Ideal(l: Limits, run: seq<Request>): State {
    if run == [] then State(Unset, map[])
    else AllowUnbounded(l, Ideal(l, run[..|run| - 1]), run[|run| - 1].key, run[|run| - 1].now).0
  }

  function IdealVerdict(l: Limits, run: seq<Request>): Decision
    requires run != []
  {
    AllowUnbounded(l, Ideal(l, run[..|run| - 1]), run[|run| - 1].key, run[|run| - 1].now).1
  }

  /** Whenever a key arrives that is not in the map, fewer than maxKeys keys have a live window. */
  ghost predicate RoomForNewKeys(l: Limits, run: seq<Request>) {
    forall i :: 0 <= i < |run| ==>
      run[i].key in After(l, run[..i]).perKey || |Live(Ideal(l, run[..i]).perKey, run[i].now, l.window)| < l.maxKeys
  }

  /** The bounded map agrees with the ideal one but for keys whose window is over. */
  ghost predicate Mirrors(l: Limits, s: State, ideal: State, now: int) {
    && s.global == ideal.global
    && (forall k :: k in s.perKey ==> k in ideal.perKey && ideal.perKey[k] == s.perKey[k])
    && (forall k :: k in ideal.perKey ==>
          && ideal.perKey[k].Window? && ideal.perKey[k].start <= now
          && (k in s.perKey || now - ideal.perKey[k].start >= l.window))
  }

  lemma LiveKeysAgree(l: Limits, s: State, ideal: State, before: int, now: int)
    requires Mirrors(l, s, ideal, before) && before <= now
    ensures Live(s.perKey, now, l.window) == Live(ideal.perKey, now, l.window)
  {
  }

  lemma StepMirrors(l: Limits, s: State, ideal: State, before: int, key: Key, now: int)
    requires Mirrors(l, s, ideal, before) && before <= now
    requires key in s.perKey || |Live(ideal.perKey, now, l.window)| < l.maxKeys
    ensures Mirrors(l, Allow(l, s, key, now).0, AllowUnbounded(l, ideal, key, now).0, now)
    ensures Allow(l, s, key, now).1 == AllowUnbounded(l, ideal, key, now).1
  {
    LiveKeysAgree(l, s, ideal, before, now);
    if key !in s.perKey {
      assert |Pruned(l, s.perKey, now)| < l.maxKeys;
      assert key in ideal.perKey ==> Expired(ideal.perKey[key], now, l.window);
    }
  }

  lemma {:induction false} RunMirrors(l: Limits, run: seq<Request>)
    requires ClockMovesForward(run) && RoomForNewKeys(l, run)
    ensures Mirrors(l, After(l, run), Ideal(l, run), if run == [] then 0 else run[|run| - 1].now)
    ensures run != [] ==> Verdict(l, run) == IdealVerdict(l, run)
  {
    if run != [] {
      var front, last := run[..|run| - 1], run[|run| - 1];
      forall i | 0 <= i < |front|
        ensures front[i].key in After(l, front[..i]).perKey
                || |Live(Ideal(l, front[..i]).perKey, front[i].now, l.window)| < l.maxKeys
      {
        assert front[..i] == run[..i];
      }
      RunMirrors(l, front);
      var before := if front == [] then last.now else front[|front| - 1].now;
      StepMirrors(l, After(l, front), Ideal(l, front), before, last.key, last.now);
    }
  }

  /** With room for new keys, bounding and pruning the map changes no decision of a run. */
  lemma BoundedDecidesLikeUnbounded(l: Limits, run: seq<Request>, n: int)
    requires ClockMovesForward(run) && RoomForNewKeys(l, run) && 0 < n <= |run|
    ensures Verdict(l, run[..n]) == IdealVerdict(l, run[..n])
  {
    forall i | 0 <= i < n
      ensures run[..n][i].key in After(l, run[..n][..i]).perKey
              || |Live(Ideal(l, run[..n][..i]).perKey, run[..n][i].now, l.window)| < l.maxKeys
    {
      assert run[..n][..i] == run[..i];
    }
    RunMirrors(l, run[..n]);
  }

  /** Without room the limiters part: an untracked key is not held to its limit. */
  lemma FullMapDecidesOtherwise() returns (l: Limits, run: seq<Request>)
    ensures ClockMovesForward(run) && run != [] && Verdict(l, run) != IdealVerdict(l, run)
  {
    l := Limits(1, 10, 1, 60 * SECOND);
    run := [Request("a", 0), Request("b", 0), Request("b", 0)];
    assert run[..2] == [Request("a", 0), Request("b", 0)] && run[..2][..1] == [Request("a", 0)];
    assert run[..2][..1][..0] == [];
    assert After(l, [Request("a", 0)]) == State(Window(0, 1), map["a" := Window(0, 1)]);
    assert Live(map["a" := Window(0, 1)], 0, l.window) == map["a" := Window(0, 1)];
    assert After(l, run[..2]) == State(Window(0, 2), map["a" := Window(0, 1)]);
    assert Ideal(l, [Request("a", 0)]) == State(Window(0, 1), map["a" := Window(0, 1)]);
    assert Ideal(l, run[..2]) == State(Window(0, 2), map["a" := Window(0, 1), "b" := Window(0, 1)]);
  }

  // ---------- how many live keys the bounded map is good for ----------

  /** At every request at most n keys have a live window, the requesting one included. */
  ghost predicate LiveAtMost(l: Limits, run: seq<Request>, n: nat) {
    run == [] ||
    var front, last := run[..|run| - 1], run[|run| - 1];
    LiveAtMost(l, front, n) && |Live(Ideal(l, front).perKey, last.now, l.window).Keys + {last.key}| <= n
  }

  lemma {:induction false} FewKeysMirror(l: Limits, run: seq<Request>, n: nat)
    requires ClockMovesForward(run) && LiveAtMost(l, run, n) && n <= l.maxKeys
    ensures Mirrors(l, After(l, run), Ideal(l, run), if run == [] then 0 else run[|run| - 1].now)
    ensures run != [] ==> Verdict(l, run) == IdealVerdict(l, run)
  {
    if run != [] {
      var front, last := run[..|run| - 1], run[|run| - 1];
      FewKeysMirror(l, front, n);
      var before := if front == [] then last.now else front[|front| - 1].now;
      var live := Live(Ideal(l, front).perKey, last.now, l.window);
      if last.key !in live { assert |live.Keys + {last.key}| == |live| + 1; }
      LiveKeysAgree(l, After(l, front), Ideal(l, front), before, last.now);
      StepMirrors(l, After(l, front), Ideal(l, front), before, last.key, last.now);
    }
  }

  /** The i-th of any number of different keys. */
  function KeyOf(i: nat): (k: Key)
    ensures |k| == i
  {
    seq(i, _ => 'k')
  }

  function Ones(m: nat): map<Key, Window> {
    if m == 0 then map[] else Ones(m - 1)[KeyOf(m - 1) := Window(0, 1)]
  }

  lemma {:induction false} OnesHold(m: nat, k: Key)
    ensures k in Ones(m) <==> |k| < m && k == KeyOf(|k|)
    ensures k in Ones(m) ==> Ones(m)[k] == Window(0, 1)
    ensures |Ones(m)| == m
  {
    if m > 0 {
      OnesHold(m - 1, k);
      OnesHold(m - 1, KeyOf(m - 1));
      InsertSize(Ones(m - 1), KeyOf(m - 1), Window(0, 1));
    }
  }

  lemma AllOnesLive(m: nat, length: int)
    requires length > 0
    ensures Live(Ones(m), 0, length) == Ones(m)
  {
    forall k | k in Ones(m) ensures !Expired(Ones(m)[k], 0, length) { OnesHold(m, k); }
  }

  /** Requests of these keys only, all at one moment. */
  ghost predicate Within(run: seq<Request>, keys: set<Key>) {
    forall i :: 0 <= i < |run| ==> run[i].now == 0 && run[i].key in keys
  }

  lemma {:induction false} FewKeysLive(l: Limits, run: seq<Request>, keys: set<Key>)
    requires Within(run, keys)
    ensures Ideal(l, run).perKey.Keys <= keys && LiveAtMost(l, run, |keys|)
  {
    if run != [] {
      var front, last := run[..|run| - 1], run[|run| - 1];
      FewKeysLive(l, front, keys);
      CardinalityOfSubset(Live(Ideal(l, front).perKey, last.now, l.window).Keys + {last.key}, keys);
    }
  }

  lemma WithinMore(run: seq<Request>, keys: set<Key>, key: Key)
    requires Within(run, keys) && key in keys
    ensures Within(run + [Request(key, 0)], keys)
  {
  }

  lemma AtOnceIsForward(run: seq<Request>, keys: set<Key>)
    requires Within(run, keys)
    ensures ClockMovesForward(run)
  {
  }

  lemma OneMoreWithin(l: Limits, front: seq<Request>, keys: set<Key>, key: Key)
    requires Within(front, keys) && key in keys
    ensures var run := front + [Request(key, 0)]; ClockMovesForward(run) && LiveAtMost(l, run, |keys|)
  {
    WithinMore(front, keys, key);
    AtOnceIsForward(front + [Request(key, 0)], keys);
    FewKeysLive(l, front + [Request(key, 0)], keys);
  }

  /** The global window after m admissions, all at once. */
  function Started(m: nat): Window { if m == 0 then Unset else Window(0, m) }

  lemma FillStep(l: Limits, m: nat)
    requires l.perKey > 0 && l.window > 0 && m < l.maxKeys && m < l.global
    ensures var next := State(Window(0, m + 1), Ones(m + 1));
            && Allow(l, State(Started(m), Ones(m)), KeyOf(m), 0).0 == next
            && AllowUnbounded(l, State(Started(m), Ones(m)), KeyOf(m), 0).0 == next
  {
    OnesHold(m, KeyOf(m));
  }

  /** What both limiters hold after a run. */
  ghost predicate Filled(l: Limits, run: seq<Request>, m: nat) {
    After(l, run) == State(Started(m), Ones(m)) && Ideal(l, run) == State(Started(m), Ones(m))
  }

  lemma FilledByOne(l: Limits, m: nat, front: seq<Request>)
    requires l.perKey > 0 && l.window > 0 && m < l.maxKeys && m < l.global && Filled(l, front, m)
    ensures Filled(l, front + [Request(KeyOf(m), 0)], m + 1)
  {
    assert (front + [Request(KeyOf(m), 0)])[..|front|] == front;
    FillStep(l, m);
  }

  lemma KeysOfOnes(m: nat, i: nat)
    requires i <= m
    ensures KeyOf(i) in Ones(m).Keys + {KeyOf(m)}
    ensures |Ones(m).Keys + {KeyOf(m)}| == m + 1
  {
    OnesHold(m, KeyOf(i));
    OnesHold(m, KeyOf(m));
  }

  lemma FillingFills(l: Limits, m: nat) returns (run: seq<Request>)
    requires l.perKey > 0 && l.window > 0 && m <= l.maxKeys && m <= l.global
    ensures Filled(l, run, m)
    ensures Within(run, Ones(m).Keys + {KeyOf(m)})
  {
    run := [];
    for i := 0 to m
      invariant Filled(l, run, i)
      invariant Within(run, Ones(m).Keys + {KeyOf(m)})
    {
      FilledByOne(l, i, run);
      KeysOfOnes(m, i);
      run := run + [Request(KeyOf(i), 0)];
    }
  }

  /** What the unbounded limiter holds after r requests of the key that found no room. */
  function WithExtra(m: nat, r: nat): map<Key, Window> {
    if r == 0 then Ones(m) else Ones(m)[KeyOf(m) := Window(0, r)]
  }

  /** One more request of that key: the full map does not know it ... */
  lemma CrowdStep(l: Limits, r: nat)
    requires l.perKey > 0 && l.window > 0 && l.maxKeys >= 0 && l.global > l.maxKeys + l.perKey && r <= l.perKey
    ensures Allow(l, State(Started(l.maxKeys + r), Ones(l.maxKeys)), KeyOf(l.maxKeys), 0) ==
            (State(Window(0, l.maxKeys + r + 1), Ones(l.maxKeys)), Allowed)
  {
    OnesHold(l.maxKeys, KeyOf(l.maxKeys));
    AllOnesLive(l.maxKeys, l.window);
  }

  /** ... and the unbounded one counts it up to its limit. */
  lemma CrowdStepUnbounded(l: Limits, r: nat)
    requires l.perKey > 0 && l.window > 0 && l.maxKeys >= 0 && l.global > l.maxKeys + l.perKey && r <= l.perKey
    ensures var s := State(Started(l.maxKeys + r), WithExtra(l.maxKeys, r));
            var (next, d) := AllowUnbounded(l, s, KeyOf(l.maxKeys), 0);
            if r == l.perKey then d.Limited?
            else next == State(Window(0, l.maxKeys + r + 1), WithExtra(l.maxKeys, r + 1))
  {
    var m := l.maxKeys;
    OnesHold(m, KeyOf(m));
    assert WithExtra(m, r)[KeyOf(m) := Window(0, r + 1)] == WithExtra(m, r + 1);
  }

  /** What the bounded limiter holds after r requests of the key that found no room ... */
  ghost predicate CrowdedBounded(l: Limits, run: seq<Request>, r: nat)
    requires l.maxKeys >= 0
  {
    After(l, run) == State(Started(l.maxKeys + r), Ones(l.maxKeys))
  }

  /** ... and what the unbounded one does. */
  ghost predicate CrowdedIdeal(l: Limits, run: seq<Request>, r: nat)
    requires l.maxKeys >= 0
  {
    Ideal(l, run) == State(Started(l.maxKeys + r), WithExtra(l.maxKeys, r))
  }

  lemma BoundedTakesOne(l: Limits, r: nat, front: seq<Request>)
    requires l.perKey > 0 && l.window > 0 && l.maxKeys >= 0 && l.global > l.maxKeys + l.perKey && r <= l.perKey
    requires CrowdedBounded(l, front, r)
    ensures var run := front + [Request(KeyOf(l.maxKeys), 0)];
            CrowdedBounded(l, run, r + 1) && Verdict(l, run).Allowed?
  {
    assert (front + [Request(KeyOf(l.maxKeys), 0)])[..|front|] == front;
    CrowdStep(l, r);
  }

  lemma UnboundedTakesOne(l: Limits, r: nat, front: seq<Request>)
    requires l.perKey > 0 && l.window > 0 && l.maxKeys >= 0 && l.global > l.maxKeys + l.perKey && r <= l.perKey
    requires CrowdedIdeal(l, front, r)
    ensures var run := front + [Request(KeyOf(l.maxKeys), 0)];
            if r == l.perKey then IdealVerdict(l, run).Limited? else CrowdedIdeal(l, run, r + 1)
  {
    assert (front + [Request(KeyOf(l.maxKeys), 0)])[..|front|] == front;
    CrowdStepUnbounded(l, r);
  }

  ghost predicate Crowded(l: Limits, run: seq<Request>, r: nat)
    requires l.maxKeys >= 0
  {
    && CrowdedBounded(l, run, r) && CrowdedIdeal(l, run, r)
    && Within(run, Ones(l.maxKeys).Keys + {KeyOf(l.maxKeys)})
  }

  lemma FilledIsCrowded(l: Limits, run: seq<Request>)
    requires l.maxKeys >= 0 && Filled(l, run, l.maxKeys) && Within(run, Ones(l.maxKeys).Keys + {KeyOf(l.maxKeys)})
    ensures Crowded(l, run, 0)
  {
  }

  lemma CrowdedByOne(l: Limits, r: nat, front: seq<Request>)
    requires l.perKey > 0 && l.window > 0 && l.maxKeys >= 0 && l.global > l.maxKeys + l.perKey && r < l.perKey
    requires Crowded(l, front, r)
    ensures Crowded(l, front + [Request(KeyOf(l.maxKeys), 0)], r + 1)
  {
    ghost var run := front + [Request(KeyOf(l.maxKeys), 0)];
    assert CrowdedBounded(l, run, r + 1) by { BoundedTakesOne(l, r, front); }
    assert CrowdedIdeal(l, run, r + 1) by { UnboundedTakesOne(l, r, front); }
    WithinMore(front, Ones(l.maxKeys).Keys + {KeyOf(l.maxKeys)}, KeyOf(l.maxKeys));
  }

  lemma CrowdingReaches(l: Limits, r: nat) returns (run: seq<Request>)
    requires l.perKey > 0 && l.window > 0 && l.maxKeys >= 0 && l.global > l.maxKeys + l.perKey && r <= l.perKey
    ensures Crowded(l, run, r)
  {
    run := FillingFills(l, l.maxKeys);
    FilledIsCrowded(l, run);
    for i := 0 to r
      invariant Crowded(l, run, i)
    {
      CrowdedByOne(l, i, run);
      run := run + [Request(KeyOf(l.maxKeys), 0)];
    }
  }

  /** With one key more than the map holds, all at once, its last request is decided differently. */
  lemma CrowdedMapDecidesOtherwise(l: Limits) returns (run: seq<Request>)
    requires l.perKey > 0 && l.window > 0 && l.maxKeys >= 0 && l.global > l.maxKeys + l.perKey
    ensures run != [] && ClockMovesForward(run) && LiveAtMost(l, run, l.maxKeys + 1)
    ensures Verdict(l, run) != IdealVerdict(l, run)
  {
    ghost var keys := Ones(l.maxKeys).Keys + {KeyOf(l.maxKeys)};
    var front := CrowdingReaches(l, l.perKey);
    run := front + [Request(KeyOf(l.maxKeys), 0)];
    assert Verdict(l, run) != IdealVerdict(l, run) by {
      BoundedTakesOne(l, l.perKey, front);
      UnboundedTakesOne(l, l.perKey, front);
    }
    assert |keys| == l.maxKeys + 1 && KeyOf(l.maxKeys) in keys by { KeysOfOnes(l.maxKeys, l.maxKeys); }
    assert ClockMovesForward(run) && LiveAtMost(l, run, |keys|) by { OneMoreWithin(l, front, keys, KeyOf(l.maxKeys)); }
  }

  lemma {:induction false} LiveAtMostMore(l: Limits, run: seq<Request>, n: nat, more: nat)
    requires LiveAtMost(l, run, n) && n <= more
    ensures LiveAtMost(l, run, more)
  {
    if run != [] { LiveAtMostMore(l, run[..|run| - 1], n, more); }
  }

  ghost predicate AgreesUpTo(l: Limits, n: nat) {
    forall run :: ClockMovesForward(run) && run != [] && LiveAtMost(l, run, n) ==>
      Verdict(l, run) == IdealVerdict(l, run)
  }

  /** Under a ceiling high enough not to decide first, n live keys are too many once they are
      more than the map holds. */
  lemma HighCeilingIsExact(l: Limits, n: nat)
    requires l.perKey > 0 && l.window > 0 && l.maxKeys >= 0 && l.global > l.maxKeys + l.perKey
    ensures AgreesUpTo(l, n) <==> n <= l.maxKeys
  {
    if n <= l.maxKeys {
      AgreesEasily(l, n);
    } else {
      var run := CrowdedMapDecidesOtherwise(l);
      LiveAtMostMore(l, run, l.maxKeys + 1, n);
    }
  }

  /** Without a per-key limit, or with windows that are over at once, no key is ever refused. */
  lemma {:induction false} NoKeyRefusals(l: Limits, run: seq<Request>)
    requires l.perKey <= 0 || l.window <= 0
    ensures After(l, run).global == Ideal(l, run).global
    ensures run != [] ==> Verdict(l, run) == IdealVerdict(l, run)
  {
    if run != [] { NoKeyRefusals(l, run[..|run| - 1]); }
  }

  lemma AgreesEasily(l: Limits, n: nat)
    requires n <= l.maxKeys || l.perKey <= 0 || l.window <= 0
    ensures AgreesUpTo(l, n)
  {
    forall run | ClockMovesForward(run) && run != [] && LiveAtMost(l, run, n)
      ensures Verdict(l, run) == IdealVerdict(l, run)
    {
      if n <= l.maxKeys { FewKeysMirror(l, run, n); } else { NoKeyRefusals(l, run); }
    }
  }

  /** Whatever the global ceiling. */
  ghost predicate AgreesUnderAnyCeiling(perKey: int, maxKeys: int, window: int, n: nat) {
    forall global: int :: AgreesUpTo(Limits(perKey, global, maxKeys, window), n)
  }

  /** Main result: the bounded limiter makes every decision of an unbounded one with up to n live
      keys, under every global ceiling, exactly when the map holds n keys or no key is limited. */
  lemma AgreesExactlyUpToMaxKeys(perKey: int, maxKeys: nat, window: int, n: nat)
    ensures AgreesUnderAnyCeiling(perKey, maxKeys, window, n) <==> n <= maxKeys || perKey <= 0 || window <= 0
  {
    if n <= maxKeys || perKey <= 0 || window <= 0 {
      forall global: int ensures AgreesUpTo(Limits(perKey, global, maxKeys, window), n) {
        AgreesEasily(Limits(perKey, global, maxKeys, window), n);
      }
    } else {
      HighCeilingIsExact(Limits(perKey, maxKeys + perKey + 1, maxKeys, window), n);
    }
  }

  // ---------- how many admissions fit in a real interval ----------

  /** One admission and the start of the window it was counted in. */
  datatype Admission = Admission(time: int, start: int)

  ghost function GlobalLog(l: Limits, run: seq<Request>): seq<Admission> {
    if run == [] then []
    else
      var log, s := GlobalLog(l, run[..|run| - 1]), After(l, run);
      if Verdict(l, run).Allowed? && s.global.Window? then log + [Admission(run[|run| - 1].now, s.global.start)]
      else log
  }

  /** The admissions of one key that were counted in a window of its own. */
  ghost function KeyLog(l: Limits, run: seq<Request>, key: Key): seq<Admission> {
    if run == [] then []
    else
      var log, s := KeyLog(l, run[..|run| - 1], key), After(l, run);
      if Verdict(l, run).Allowed? && run[|run| - 1].key == key && key in s.perKey && s.perKey[key].Window?
      then log + [Admission(run[|run| - 1].now, s.perKey[key].start)]
      else log
  }

  /** Admissions in windows that do not overlap, at most `limit` of them in each. */
  ghost predicate WellWindowed(log: seq<Admission>, length: int, limit: int) {
    && (forall i :: 0 <= i < |log| ==> log[i].start <= log[i].time < log[i].start + length)
    && (forall i, j :: 0 <= i < j < |log| ==> log[i].start == log[j].start || log[i].start + length <= log[j].start)
    && (forall i, j :: 0 <= i <= j < |log| && i + limit <= j ==> log[i].start != log[j].start)
  }

  /** The last w.count admissions are those of the window w; all others are over before it. */
  ghost predicate Tracks(log: seq<Admission>, w: Window, length: int, limit: int) {
    && w.Window? && WellWindowed(log, length, limit) && 0 <= w.count <= |log| && w.count <= limit
    && (forall i :: 0 <= i < |log| - w.count ==> log[i].start + length <= w.start)
    && (forall i :: |log| - w.count <= i < |log| ==> log[i].start == w.start)
  }

  ghost predicate AllOver(log: seq<Admission>, now: int, length: int, limit: int) {
    WellWindowed(log, length, limit) && forall i :: 0 <= i < |log| ==> log[i].start + length <= now
  }

  lemma RefreshTracks(log: seq<Admission>, w: Window, now: int, length: int, limit: int)
    requires length > 0 && limit >= 0 && Tracks(log, w, length, limit) && w.start <= now
    ensures Tracks(log, Current(w, now, length), length, limit)
  {
  }

  lemma AdmitTracks(log: seq<Admission>, w: Window, now: int, length: int, limit: int)
    requires length > 0 && Tracks(log, w, length, limit) && w.count < limit && w.start <= now < w.start + length
    ensures Tracks(log + [Admission(now, w.start)], Counted(w), length, limit)
  {
  }

  /** Before a request: either a window is tracked, or all earlier admissions are over. */
  ghost predicate Ready(log: seq<Admission>, w: Window, now: int, length: int, limit: int) {
    if w.Window? then Tracks(log, w, length, limit) && w.start <= now else AllOver(log, now, length, limit)
  }

  /** What one request does to a window: refresh it and, if there is room, count the admission. */
  lemma RequestTracks(log: seq<Admission>, w: Window, now: int, length: int, limit: int)
    requires length > 0 && limit >= 0 && Ready(log, w, now, length, limit)
    ensures var c := Current(w, now, length);
            && Tracks(log, c, length, limit) && c.start <= now
            && (c.count < limit ==> Tracks(log + [Admission(now, c.start)], Counted(c), length, limit))
  {
    var c := Current(w, now, length);
    if w.Window? { RefreshTracks(log, w, now, length, limit); }
    assert Tracks(log, c, length, limit);
    if c.count < limit { AdmitTracks(log, c, now, length, limit); }
  }

  lemma GlobalOutcome(l: Limits, s: State, key: Key, now: int)
    ensures var (s', d) := Allow(l, s, key, now);
            var global := Current(s.global, now, l.window);
            s'.global == (if d.Allowed? then Counted(global) else global) && (d.Allowed? ==> global.count < l.global)
  {
  }

  lemma GlobalStep(l: Limits, s: State, log: seq<Admission>, last: int, key: Key, now: int)
    requires l.window > 0 && l.global >= 0 && last <= now && Ready(log, s.global, last, l.window, l.global)
    ensures var (s', d) := Allow(l, s, key, now);
            && s'.global.Window?
            && Ready(if d.Allowed? then log + [Admission(now, s'.global.start)] else log,
                     s'.global, now, l.window, l.global)
  {
    var (s', d) := Allow(l, s, key, now);
    GlobalOutcome(l, s, key, now);
    RequestTracks(log, s.global, now, l.window, l.global);
  }

  lemma {:induction false} GlobalTracks(l: Limits, run: seq<Request>)
    requires ClockMovesForward(run) && l.window > 0 && l.global >= 0 && run != []
    ensures Ready(GlobalLog(l, run), After(l, run).global, run[|run| - 1].now, l.window, l.global)
  {
    var front, r := run[..|run| - 1], run[|run| - 1];
    if front == [] {
      GlobalStep(l, After(l, front), [], r.now, r.key, r.now);
    } else {
      GlobalTracks(l, front);
      GlobalStep(l, After(l, front), GlobalLog(l, front), front[|front| - 1].now, r.key, r.now);
    }
  }

  /** The admissions counted in the window that started at `start`. */
  ghost function CountedIn(log: seq<Admission>, start: int): set<int> {
    set i | 0 <= i < |log| && log[i].start == start
  }

  lemma {:induction false} IntervalSize(s: set<int>, from: int, n: nat)
    requires forall i :: i in s <==> from <= i < from + n
    ensures |s| == n
  {
    if n > 0 {
      assert s == (s - {from + n - 1}) + {from + n - 1};
      IntervalSize(s - {from + n - 1}, from, n - 1);
    } else if s != {} {
      var i := Pick(s);
    }
  }

  lemma TrackedCount(log: seq<Admission>, w: Window, length: int, limit: int)
    requires length > 0 && Tracks(log, w, length, limit)
    ensures w.count == |CountedIn(log, w.start)|
  {
    IntervalSize(CountedIn(log, w.start), |log| - w.count, w.count);
  }

  /** The global count is the number of admissions in its window: after any run, no refusal, of a
      key or by the ceiling, has used any of the global budget. */
  lemma GlobalCountIsAdmissions(l: Limits, run: seq<Request>)
    requires ClockMovesForward(run) && l.window > 0 && l.global >= 0 && run != []
    ensures After(l, run).global.Window?
    ensures After(l, run).global.count == |CountedIn(GlobalLog(l, run), After(l, run).global.start)|
  {
    var front, last := run[..|run| - 1], run[|run| - 1];
    GlobalOutcome(l, After(l, front), last.key, last.now);
    GlobalTracks(l, run);
    TrackedCount(GlobalLog(l, run), After(l, run).global, l.window, l.global);
  }

  /** The window of a key, or none when the map does not hold it. */
  function WindowOf(perKey: map<Key, Window>, key: Key): Window {
    if key in perKey then perKey[key] else Unset
  }

  ghost predicate AllSet(s: State) {
    forall k :: k in s.perKey ==> s.perKey[k].Window?
  }

  /** A request leaves another key's window as it is, unless pruning drops it once over. */
  lemma OtherKeyStep(l: Limits, s: State, log: seq<Admission>, key: Key, other: Key, now: int)
    requires l.window > 0 && l.perKey > 0 && other != key
    requires Ready(log, WindowOf(s.perKey, key), now, l.window, l.perKey)
    ensures Ready(log, WindowOf(Allow(l, s, other, now).0.perKey, key), now, l.window, l.perKey)
  {
    var w' := WindowOf(Allow(l, s, other, now).0.perKey, key);
    assert w' == WindowOf(s.perKey, key) || w'.Unset?;
  }

  lemma OwnKeyStep(l: Limits, s: State, log: seq<Admission>, key: Key, now: int)
    requires l.window > 0 && l.perKey > 0 && AllSet(s)
    requires Ready(log, WindowOf(s.perKey, key), now, l.window, l.perKey)
    ensures var (s', d) := Allow(l, s, key, now);
            Ready(if d.Allowed? && key in s'.perKey then log + [Admission(now, s'.perKey[key].start)] else log,
                  WindowOf(s'.perKey, key), now, l.window, l.perKey)
  {
    RequestTracks(log, WindowOf(s.perKey, key), now, l.window, l.perKey);
  }

  lemma {:induction false} KeysAreSet(l: Limits, run: seq<Request>)
    ensures AllSet(After(l, run))
  {
    if run != [] { KeysAreSet(l, run[..|run| - 1]); }
  }

  lemma {:induction false} KeyTracks(l: Limits, run: seq<Request>, key: Key)
    requires ClockMovesForward(run) && l.window > 0 && l.perKey > 0 && run != []
    ensures Ready(KeyLog(l, run, key), WindowOf(After(l, run).perKey, key), run[|run| - 1].now, l.window, l.perKey)
  {
    var front, r := run[..|run| - 1], run[|run| - 1];
    var s, log := After(l, front), KeyLog(l, front, key);
    KeysAreSet(l, front);
    KeysAreSet(l, run);
    if front != [] {
      KeyTracks(l, front, key);
      assert front[|front| - 1].now <= r.now;
    }
    assert Ready(log, WindowOf(s.perKey, key), r.now, l.window, l.perKey);
    if r.key == key {
      OwnKeyStep(l, s, log, key, r.now);
    } else {
      OtherKeyStep(l, s, log, key, r.key, r.now);
    }
  }

  /** The admissions at times in [t, t + length). */
  ghost function Inside(log: seq<Admission>, t: int, length: int): set<int> {
    set i | 0 <= i < |log| && t <= log[i].time < t + length
  }

  lemma {:induction false} FitsInInterval(s: set<int>, from: int, n: nat)
    requires forall i :: i in s ==> from <= i < from + n
    ensures |s| <= n
  {
    if n > 0 {
      FitsInInterval(s - {from + n - 1}, from, n - 1);
    } else if s != {} {
      var i := Pick(s);
    }
  }

  lemma AtMostTwoWindows(log: seq<Admission>, length: int, limit: nat, t: int)
    requires length > 0 && WellWindowed(log, length, limit)
    ensures |Inside(log, t, length)| <= 2 * limit
  {
    var inside := Inside(log, t, length);
    if inside != {} {
      var m := Min(inside);
      forall i | i in inside ensures i < m + 2 * limit {
        if i >= m + 2 * limit {
          WindowsApart(log, length, limit, m, i);
        }
      }
      FitsInInterval(inside, m, 2 * limit);
    }
  }

  /** Two windows' worth of admissions later, a full window length has gone by. */
  lemma WindowsApart(log: seq<Admission>, length: int, limit: nat, m: int, i: int)
    requires length > 0 && WellWindowed(log, length, limit)
    requires 0 <= m && m + 2 * limit <= i < |log|
    ensures log[m].time + length < log[i].time
  {
    var k := m + limit;
    assert log[m].start != log[k].start && log[k].start != log[i].start;
    assert log[m].start + length <= log[k].start;
    assert log[k].start + length <= log[i].start;
  }

  /** Any half-open interval of one window length holds at most twice the global limit of admissions. */
  lemma GlobalAdmissionsBounded(l: Limits, run: seq<Request>, t: int)
    requires ClockMovesForward(run) && l.window > 0 && l.global >= 0
    ensures |Inside(GlobalLog(l, run), t, l.window)| <= 2 * l.global
  {
    if run == [] { return; }
    GlobalTracks(l, run);
    AtMostTwoWindows(GlobalLog(l, run), l.window, l.global, t);
  }

  /** ... and at most twice the per-key limit of tracked admissions of one key, across
      window resets, pruning and re-insertion. */
  lemma KeyAdmissionsBounded(l: Limits, run: seq<Request>, key: Key, t: int)
    requires ClockMovesForward(run) && l.window > 0 && l.perKey > 0
    ensures |Inside(KeyLog(l, run, key), t, l.window)| <= 2 * l.perKey
  {
    if run == [] { return; }
    KeyTracks(l, run, key);
    AtMostTwoWindows(KeyLog(l, run, key), l.window, l.perKey, t);
  }

  // ---------- limits under which the map never fills ----------

  /** For each key, the place in the global log of the admission that started its window. */
  ghost function Starters(l: Limits, run: seq<Request>): map<Key, int> {
    if run == [] then map[]
    else
      var front, last, s := run[..|run| - 1], run[|run| - 1], After(l, run);
      if Verdict(l, run).Allowed? && last.key in s.perKey && s.perKey[last.key] == Window(last.now, 1)
      then Starters(l, front)[last.key := |GlobalLog(l, front)|] else Starters(l, front)
  }

  ghost predicate Matched(perKey: map<Key, Window>, starters: map<Key, int>, log: seq<Admission>) {
    && (forall k :: k in starters ==> 0 <= starters[k] < |log|)
    && (forall j, k :: j in starters && k in starters && j != k ==> starters[j] != starters[k])
    && (forall k :: k in perKey ==> k in starters && perKey[k].Window? && log[starters[k]].time == perKey[k].start)
  }

  /** A window in the map is an old one of the same start, or was just started. */
  lemma WindowsAfter(l: Limits, s: State, key: Key, now: int, k: Key)
    requires l.perKey > 0 && l.window > 0 && AllSet(s) && k in Allow(l, s, key, now).0.perKey
    ensures var (next, d) := Allow(l, s, key, now);
            || (k in s.perKey && next.perKey[k].Window? && next.perKey[k].start == s.perKey[k].start)
            || (k == key && d.Allowed? && next.perKey[k] == Window(now, 1))
  {
  }

  lemma {:induction false} WindowsAreAdmissions(l: Limits, run: seq<Request>)
    requires l.perKey > 0 && l.window > 0
    ensures Matched(After(l, run).perKey, Starters(l, run), GlobalLog(l, run))
  {
    if run != [] {
      var front, last := run[..|run| - 1], run[|run| - 1];
      WindowsAreAdmissions(l, front);
      KeysAreSet(l, front);
      GlobalOutcome(l, After(l, front), last.key, last.now);
      forall k | k in After(l, run).perKey
        ensures k in Starters(l, run) && After(l, run).perKey[k].Window?
        ensures GlobalLog(l, run)[Starters(l, run)[k]].time == After(l, run).perKey[k].start
      {
        WindowsAfter(l, After(l, front), last.key, last.now, k);
      }
    }
  }

  lemma {:induction false} ImageSize(keys: set<Key>, places: map<Key, int>, image: set<int>)
    requires forall k :: k in keys ==> k in places && places[k] in image
    requires forall j, k :: j in keys && k in keys && j != k ==> places[j] != places[k]
    ensures |keys| <= |image|
    decreases |keys|
  {
    if keys != {} {
      var k :| k in keys;
      ImageSize(keys - {k}, places, image - {places[k]});
    }
  }

  lemma LiveFitInside(perKey: map<Key, Window>, starters: map<Key, int>, log: seq<Admission>, now: int, length: int)
    requires Matched(perKey, starters, log) && length > 0
    ensures |Live(perKey, now, length)| <= |Inside(log, now - length + 1, length)|
  {
    var live := Live(perKey, now, length);
    forall k | k in live.Keys
      ensures k in starters && starters[k] in Inside(log, now - length + 1, length)
    {
      assert log[starters[k]].time == perKey[k].start;
    }
    ImageSize(live.Keys, starters, Inside(log, now - length + 1, length));
  }

  /** Live keys were admitted within the last window length, so the global limit bounds them. */
  lemma LiveKeysAreBounded(l: Limits, run: seq<Request>, now: int)
    requires ClockMovesForward(run) && l.perKey > 0 && l.window > 0 && l.global >= 0
    ensures |Live(After(l, run).perKey, now, l.window)| <= 2 * l.global
  {
    WindowsAreAdmissions(l, run);
    GlobalAdmissionsBounded(l, run, now - l.window + 1);
    LiveFitInside(After(l, run).perKey, Starters(l, run), GlobalLog(l, run), now, l.window);
  }

  lemma {:induction false} RoomyMapMirrors(l: Limits, run: seq<Request>)
    requires ClockMovesForward(run) && l.window > 0 && l.global >= 0 && l.maxKeys > 2 * l.global
    ensures Mirrors(l, After(l, run), Ideal(l, run), if run == [] then 0 else run[|run| - 1].now)
    ensures run != [] ==> Verdict(l, run) == IdealVerdict(l, run)
  {
    if run != [] {
      var front, last := run[..|run| - 1], run[|run| - 1];
      RoomyMapMirrors(l, front);
      var before := if front == [] then last.now else front[|front| - 1].now;
      if l.perKey > 0 {
        LiveKeysAreBounded(l, front, last.now);
        LiveKeysAgree(l, After(l, front), Ideal(l, front), before, last.now);
        StepMirrors(l, After(l, front), Ideal(l, front), before, last.key, last.now);
      }
    }
  }

  /** With a map larger than twice the global limit, as both deployed limiters have, every
      decision of every run is that of the unbounded limiter. */
  lemma RoomyMapAlwaysAgrees(l: Limits, run: seq<Request>)
    requires ClockMovesForward(run) && run != []
    requires l.window > 0 && l.global >= 0 && l.maxKeys > 2 * l.global
    ensures Verdict(l, run) == IdealVerdict(l, run)
  {
    RoomyMapMirrors(l, run);
  }
}
