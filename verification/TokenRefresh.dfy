/**
 Refreshing the access token of one Yandex Direct connection: any number of workers share
 the stored ciphertext, a two-minute lease and a refresh token the provider rotates on use.
 */
module TokenRefresh {
  import opened TokenBundle

  const LEASE: int := 2 * 60 * SECOND

  /** Each sealing gives a new ciphertext; the refresh token sealed in it carries its number. */
  type Cipher = nat
  type WorkerId = nat

  datatype Option<T> = None | Some(value: T)

  datatype Status = Active | Error | Revoked

  /** The stored connection; a revoked one cannot be read. */
  datatype Conn = Conn(status: Status, cipher: Cipher, lease: Option<int>)

  // ---------- the store's compare-and-swap steps ----------

  predicate Claimable(c: Conn, expected: Cipher, now: int) {
    c.status == Active && c.cipher == expected && (c.lease.None? || c.lease.value <= now - LEASE)
  }

  predicate Held(c: Conn, expected: Cipher, claimedAt: int) {
    c.status == Active && c.cipher == expected && c.lease == Some(claimedAt)
  }

  function Leased(c: Conn, now: int): Conn { c.(lease := Some(now)) }

  function Unleased(c: Conn): Conn { c.(lease := None) }

  function Replaced(c: Conn, replacement: Cipher): Conn { c.(cipher := replacement, lease := None) }

  function Blocked(c: Conn): Conn {
    if c.status == Revoked then c else c.(status := Error, lease := None)
  }

  datatype ClaimAnswer = Granted | Busy | Conflict | NotFound

  // ---------- the connection as an object, one call at a time ----------

  datatype Outcome =
    | Token(cipher: Cipher, now: int, route: Route)
    | Failure

  /** Which return statement handed the token out. */
  datatype Route = Current | Latest | Fallback | Replacement

  datatype Answer =
    | Rotated(grant: Grant, seals: bool)
    | RotationLost  // the provider rotated the token but the answer never arrived
    | Transient
    | InvalidGrant

  /** A ciphertext's content and the ciphertext whose refresh token it was obtained with. */
  datatype Sealed = Sealed(bundle: Bundle, parent: Option<Cipher>)

  /** Every returned token is legacy or unexpired when read, with 30 seconds to spare when
      an old one is handed out because the refresh did not succeed. */
  predicate Honest(sealed: map<Cipher, Sealed>, o: Outcome) {
    o.Token? ==>
      && o.cipher in sealed
      && Usable(sealed[o.cipher].bundle, if o.route == Fallback then o.now + FALLBACK_SKEW else o.now)
  }

  predicate SoundBundle(b: Bundle) {
    b.access != "" && (!b.legacy ==> b.refreshAfter <= b.expiresAt)
  }

  class ConnectionRow {
    var status: Status
    var cipher: Cipher
    var lease: Option<int>
    var sealed: map<Cipher, Sealed>
    var minted: nat

    function Row(): Conn
      reads this
    {
      Conn(status, cipher, lease)
    }

    ghost predicate Valid()
      reads this
    {
      && cipher in sealed
      && (forall c :: c in sealed ==> c < minted && SoundBundle(sealed[c].bundle))
    }

    method ClaimRefresh(expected: Cipher, now: int) returns (answer: ClaimAnswer)
      modifies this`lease
      ensures answer == Granted <==> Claimable(old(Row()), expected, now)
      ensures answer == NotFound <==> status == Revoked
      ensures answer == Busy <==>
                && answer != Granted && answer != NotFound
                && cipher == expected && lease.Some? && lease.value > now - LEASE
      ensures Row() == if answer == Granted then Leased(old(Row()), now) else old(Row())
    {
      if status == Active && cipher == expected && (lease.None? || lease.value <= now - LEASE) {
        lease := Some(now);
        return Granted;
      }
      if status == Revoked { return NotFound; }
      if cipher == expected && lease.Some? && lease.value > now - LEASE { return Busy; }
      return Conflict;
    }

    method CompleteRefresh(expected: Cipher, claimedAt: int, replacement: Cipher) returns (ok: bool)
      modifies this`cipher, this`lease
      ensures ok <==> Held(old(Row()), expected, claimedAt)
      ensures Row() == if ok then Replaced(old(Row()), replacement) else old(Row())
    {
      ok := Held(Row(), expected, claimedAt);
      if ok { cipher, lease := replacement, None; }
    }

    method ReleaseRefresh(expected: Cipher, claimedAt: int) returns (ok: bool)
      modifies this`lease
      ensures ok <==> Held(old(Row()), expected, claimedAt)
      ensures Row() == if ok then Unleased(old(Row())) else old(Row())
    {
      ok := Held(Row(), expected, claimedAt);
      if ok { lease := None; }
    }

    method MarkRefreshDenied(expected: Cipher, claimedAt: int) returns (marked: bool)
      modifies this`status, this`lease
      ensures marked <==> Held(old(Row()), expected, claimedAt)
      ensures Row() == if marked then Blocked(old(Row())) else old(Row())
    {
      marked := Held(Row(), expected, claimedAt);
      if marked { status, lease := Error, None; }
    }

    /**
     directAccessToken without interference from other workers. A bundle not yet due is
     handed out as it is. A due one is replaced when the claim is free and the provider
     rotates; it is handed out for 30 more seconds when the claim is taken or the refresh
     fails; and a refused grant blocks the connection.
     */
    method DirectAccessToken(now: int, answer: Answer) returns (o: Outcome)
      requires Valid()
      requires answer.Rotated? ==> FitsInt64(answer.grant.expiresIn)
      modifies this
      ensures Valid() && Honest(sealed, o)
      ensures old(sealed).Keys <= sealed.Keys && forall c :: c in old(sealed) ==> sealed[c] == old(sealed)[c]
      ensures cipher != old(cipher) ==>
                && sealed[cipher].parent == Some(old(cipher)) && status == old(status)
                && o == Token(cipher, now, Replacement)
                && answer.Rotated? && NewBundle(now, answer.grant) == Ok(sealed[cipher].bundle)
      ensures status != old(status) ==> answer == InvalidGrant && status == Error && o == Failure
      ensures var b, claimable :=
                old(sealed)[old(cipher)].bundle,
                old(status) == Active && (old(lease).None? || old(lease).value + 120 * SECOND <= now);
              if old(status) == Revoked then o == Failure && Row() == old(Row())
              else if b.legacy || now < b.refreshAfter then
                o == Token(old(cipher), now, Current) && Row() == old(Row()) && (b.legacy || now < b.expiresAt)
              else if claimable && answer == InvalidGrant then
                o == Failure && Row() == Conn(Error, old(cipher), None)
              else if claimable && answer.Rotated? && answer.seals && Complete(answer.grant) then
                && o == Token(cipher, now, Replacement) && cipher !in old(sealed)
                && Row() == Conn(Active, cipher, None)
                && sealed[cipher].bundle.access == answer.grant.access
                && sealed[cipher].bundle.refresh == answer.grant.refresh
              else
                && Row() == (if claimable then Conn(Active, old(cipher), None) else old(Row()))
                && o == (if b.expiresAt > now + 30 * SECOND && !(claimable && answer.Rotated?)
                         then Token(old(cipher), now, Fallback) else Failure)
    {
      if status == Revoked { return Failure; }
      var current := cipher;
      var bundle := sealed[current].bundle;
      if bundle.legacy { return Token(current, now, Current); }
      if !Due(bundle, now) {
        return Token(current, now, Current);
      }
      var claim := ClaimRefresh(current, now);
      if claim == NotFound { return Failure; }
      if claim != Granted {
        // The reread finds the same ciphertext, so only the old token is left.
        return if Usable(bundle, now + FALLBACK_SKEW) then Token(current, now, Fallback) else Failure;
      }
      match answer
      case InvalidGrant =>
        var marked := MarkRefreshDenied(current, now);
        return Failure;
      case Transient =>
        var ok := ReleaseRefresh(current, now);
        return if Usable(bundle, now + FALLBACK_SKEW) then Token(current, now, Fallback) else Failure;
      case RotationLost =>
        var ok := ReleaseRefresh(current, now);
        return if Usable(bundle, now + FALLBACK_SKEW) then Token(current, now, Fallback) else Failure;
      case Rotated(grant, seals) =>
        NewBundleIsTimely(now, grant);
        var made := NewBundle(now, grant);
        if made.Incomplete? || !seals {
          var ok := ReleaseRefresh(current, now);
          return Failure;
        }
        var next := minted;
        sealed, minted := sealed[next := Sealed(made.value, Some(current))], minted + 1;
        var ok := CompleteRefresh(current, now, next);
        return Token(next, now, Replacement);
    }
  }

  // ---------- all interleavings ----------

  /** Where one call of directAccessToken stands; `now` is the one clock reading it makes,
      and the stamp of its claim. */
  datatype Phase =
    | DueForRefresh(cipher: Cipher, now: int)
    | Expired(cipher: Cipher, now: int)     // to be marked without any check
    | Turned(cipher: Cipher, now: int)      // claim refused
    | Rereading(cipher: Cipher, now: int)
    | Calling(cipher: Cipher, now: int)     // claim held, refresh token not yet answered
    | Failing(cipher: Cipher, now: int)     // transient failure
    | Discarding(cipher: Cipher, now: int)  // answer that makes no bundle
    | Refused(cipher: Cipher, now: int)     // invalid_grant
    | Outdated(cipher: Cipher, now: int)    // invalid_grant for a claim no longer held
    | Carrying(cipher: Cipher, now: int, next: Cipher)
    | Conflicted(cipher: Cipher, now: int)
    | Done(outcome: Outcome)

  /** `live` numbers the refresh token the provider accepts, `withdrawn` says the grant was
      taken back; holder, stamps and history record what happened. */
  datatype World = World(
    conn: Conn, sealed: map<Cipher, Sealed>, minted: nat, live: Cipher, withdrawn: bool,
    workers: map<WorkerId, Phase>, holder: Option<WorkerId>, stamps: set<int>, history: seq<Cipher>)

  datatype Action =
    | Expire
    | Claim
    | Classify
    | Answered(answer: Answer)
    | Release
    | Deny
    | Store
    | Reread(readable: bool)
    | Fault  // a crash, or a store error that ends the call

  datatype Event =
    | Begin(worker: WorkerId, now: int)
    | Act(worker: WorkerId, action: Action)
    | Unauthorized  // another request met HTTP 401 or error 53
    | Disconnect
    | Withdraw

  function Start(b: Bundle): World {
    World(Conn(Active, 0, None), map[0 := Sealed(b, None)], 1, 0, false, map[], None, {}, [0])
  }

  function Opened(s: World, now: int): Phase {
    var c := s.conn.cipher;
    if s.conn.status == Revoked || c !in s.sealed then Done(Failure)
    else
      var b := s.sealed[c].bundle;
      if b.legacy then Done(Token(c, now, Current))
      else if Due(b, now) then DueForRefresh(c, now)
      else if b.expiresAt <= now then Expired(c, now)
      else Done(Token(c, now, Current))
  }

  function OldOr(s: World, c: Cipher, now: int): Phase {
    if c in s.sealed && Usable(s.sealed[c].bundle, now + FALLBACK_SKEW) then Done(Token(c, now, Fallback))
    else Done(Failure)
  }

  function At(s: World, w: WorkerId, p: Phase): World { s.(workers := s.workers[w := p]) }

  /** Any answer may come: what provider would give it is a matter of the run. */
  function OnAnswer(s: World, w: WorkerId, p: Phase, answer: Answer): World
    requires p.Calling?
  {
    match answer
    case Transient => At(s, w, Failing(p.cipher, p.now))
    case InvalidGrant => At(s, w, Refused(p.cipher, p.now))
    case RotationLost => At(s.(live := s.minted, minted := s.minted + 1), w, Failing(p.cipher, p.now))
    case Rotated(grant, seals) =>
      if !FitsInt64(grant.expiresIn) then s
      else
        var made, rotated := NewBundle(p.now, grant), s.(live := s.minted, minted := s.minted + 1);
        if made.Incomplete? || !seals then At(rotated, w, Discarding(p.cipher, p.now))
        else At(rotated.(sealed := s.sealed[s.minted := Sealed(made.value, Some(p.cipher))]),
                w, Carrying(p.cipher, p.now, s.minted))
  }

  /** The phase after the reread that follows a refused claim, a refused grant or a lost race. */
  function OnReread(s: World, p: Phase, readable: bool): Phase
    requires p.Rereading? || p.Outdated? || p.Conflicted?
  {
    var c := s.conn.cipher;
    if && readable && s.conn.status != Revoked && c in s.sealed && (p.Conflicted? || c != p.cipher)
       && Usable(s.sealed[c].bundle, p.now)
    then Done(Token(c, p.now, Latest))
    else if p.Rereading? then OldOr(s, p.cipher, p.now)
    else Done(Failure)
  }

  /** One atomic step of a worker; a step out of turn changes nothing. */
  function Acted(s: World, w: WorkerId, p: Phase, a: Action): World {
    match a
    case Expire =>
      if p.Expired? then At(s.(conn := Blocked(s.conn), holder := None), w, Done(Failure)) else s
    case Claim =>
      if !p.DueForRefresh? then s
      else if Claimable(s.conn, p.cipher, p.now) then
        At(s.(conn := Leased(s.conn, p.now), holder := Some(w), stamps := s.stamps + {p.now}),
           w, Calling(p.cipher, p.now))
      else At(s, w, Turned(p.cipher, p.now))
    case Classify =>
      if !p.Turned? then s
      else At(s, w, if s.conn.status == Revoked then Done(Failure) else Rereading(p.cipher, p.now))
    case Answered(answer) =>
      if p.Calling? then OnAnswer(s, w, p, answer) else s
    case Release =>
      if !p.Failing? && !p.Discarding? then s
      else
        var after := if p.Failing? then OldOr(s, p.cipher, p.now) else Done(Failure);
        if Held(s.conn, p.cipher, p.now) then At(s.(conn := Unleased(s.conn), holder := None), w, after)
        else At(s, w, after)
    case Deny =>
      if !p.Refused? then s
      else if Held(s.conn, p.cipher, p.now) then At(s.(conn := Blocked(s.conn), holder := None), w, Done(Failure))
      else At(s, w, Outdated(p.cipher, p.now))
    case Store =>
      if !p.Carrying? then s
      else if Held(s.conn, p.cipher, p.now) then
        At(s.(conn := Replaced(s.conn, p.next), holder := None, history := s.history + [p.next]),
           w, Done(Token(p.next, p.now, Replacement)))
      else At(s, w, Conflicted(p.cipher, p.now))
    case Reread(readable) =>
      if p.Rereading? || p.Outdated? || p.Conflicted? then At(s, w, OnReread(s, p, readable)) else s
    case Fault =>
      if p.Done? then s else At(s, w, Done(Failure))
  }

  function Step(s: World, e: Event): World {
    match e
    case Begin(w, now) => if w in s.workers then s else At(s, w, Opened(s, now))
    case Unauthorized => s.(conn := Blocked(s.conn), holder := None)
    case Disconnect => s.(conn := s.conn.(status := Revoked, lease := None), holder := None)
    case Withdraw => s.(withdrawn := true)
    case Act(w, a) => if w in s.workers then Acted(s, w, s.workers[w], a) else s
  }

  function Follow(s: World, run: seq<Event>): World
    decreases |run|
  {
    if run == [] then s else Follow(Step(s, run[0]), run[1..])
  }

  // ---------- what every interleaving keeps ----------

  /** Each stored bundle was obtained with the refresh token of the one it replaced. */
  ghost predicate NoUpdateLost(s: World) {
    && |s.history| > 0 && s.history[|s.history| - 1] == s.conn.cipher
    && (forall i :: 0 <= i < |s.history| ==> s.history[i] in s.sealed)
    && (forall i :: 0 < i < |s.history| ==> s.sealed[s.history[i]].parent == Some(s.history[i - 1]))
  }

  ghost predicate PhaseSound(s: World, p: Phase) {
    match p
    case Done(o) => Honest(s.sealed, o)
    case Carrying(c, now, next) =>
      next in s.sealed && s.sealed[next].parent == Some(c) && Usable(s.sealed[next].bundle, now)
    case Expired(_, _) => false
    case _ => true
  }

  ghost predicate Kept(s: World) {
    && NoUpdateLost(s)
    && (forall c :: c in s.sealed ==> c < s.minted && SoundBundle(s.sealed[c].bundle))
    && (forall w :: w in s.workers ==> PhaseSound(s, s.workers[w]))
  }

  lemma MovedStaysKept(s: World, t: World, w: WorkerId, p: Phase)
    requires Kept(s) && t == At(s.(conn := t.conn, holder := t.holder, stamps := t.stamps), w, p)
    requires t.conn.cipher == s.conn.cipher && PhaseSound(s, p)
    ensures Kept(t)
  {
    forall v | v in t.workers ensures PhaseSound(t, t.workers[v]) {
      if v != w { assert PhaseSound(s, s.workers[v]); }
    }
  }

  lemma AnswerStaysKept(s: World, w: WorkerId, p: Phase, answer: Answer)
    requires Kept(s) && w in s.workers && s.workers[w] == p && p.Calling?
    ensures Kept(OnAnswer(s, w, p, answer))
  {
    var t := OnAnswer(s, w, p, answer);
    if answer.Rotated? && FitsInt64(answer.grant.expiresIn) { NewBundleIsTimely(p.now, answer.grant); }
    assert forall c :: c in s.sealed ==> c in t.sealed && t.sealed[c] == s.sealed[c];
    forall v | v in t.workers ensures PhaseSound(t, t.workers[v]) {
      if v != w { assert PhaseSound(s, s.workers[v]); }
    }
  }

  lemma StoreStaysKept(s: World, w: WorkerId)
    requires Kept(s) && w in s.workers && s.workers[w].Carrying?
    ensures Kept(Step(s, Act(w, Store)))
  {
    var t := Step(s, Act(w, Store));
    assert PhaseSound(s, s.workers[w]);
    forall v | v in t.workers ensures PhaseSound(t, t.workers[v]) {
      if v != w { assert PhaseSound(s, s.workers[v]); }
    }
  }

  lemma ActionStaysKept(s: World, w: WorkerId, a: Action)
    requires Kept(s) && w in s.workers
    ensures Kept(Step(s, Act(w, a)))
  {
    var p, t := s.workers[w], Step(s, Act(w, a));
    assert PhaseSound(s, p);
    if a.Answered? && p.Calling? { AnswerStaysKept(s, w, p, a.answer); }
    else if a.Store? && p.Carrying? { StoreStaysKept(s, w); }
    else if t != s { MovedStaysKept(s, t, w, t.workers[w]); }
  }

  lemma StepStaysKept(s: World, e: Event)
    requires Kept(s)
    ensures Kept(Step(s, e))
  {
    match e
    case Begin(w, now) =>
      if w !in s.workers { MovedStaysKept(s, Step(s, e), w, Opened(s, now)); }
    case Act(w, a) =>
      if w in s.workers { ActionStaysKept(s, w, a); }
    case Unauthorized =>
    case Disconnect =>
    case Withdraw =>
  }

  /** Main invariant: under any interleaving of workers, lease expiries, crashes and provider
      answers no update is lost and every token handed out is legacy or unexpired. */
  lemma {:induction false} EveryRunKeeps(s: World, run: seq<Event>)
    requires Kept(s)
    ensures Kept(Follow(s, run))
    decreases |run|
  {
    if run != [] {
      StepStaysKept(s, run[0]);
      EveryRunKeeps(Step(s, run[0]), run[1..]);
    }
  }

  lemma ConnectedIsKept(made: int, g: Grant)
    requires FitsInt64(g.expiresIn) && NewBundle(made, g).Ok?
    ensures Kept(Start(NewBundle(made, g).value))
  {
    NewBundleIsTimely(made, g);
  }

  /** So it is for every connection made by a complete grant, from its first moment on. */
  lemma EveryConnectionKeeps(made: int, g: Grant, run: seq<Event>)
    requires FitsInt64(g.expiresIn) && NewBundle(made, g).Ok?
    ensures Kept(Follow(Start(NewBundle(made, g).value), run))
  {
    ConnectedIsKept(made, g);
    EveryRunKeeps(Start(NewBundle(made, g).value), run);
  }

  // ---------- when a call ends in a token ----------

  /** After any run a new call gets the stored token exactly when it is legacy or not yet due,
      and fails at once exactly on a revoked connection; otherwise it sets out to refresh. */
  lemma BeginsWithTokenExactly(s: World, run: seq<Event>, w: WorkerId, now: int)
    requires Kept(s) && w !in Follow(s, run).workers
    ensures var t := Follow(s, run);
            var c := t.conn.cipher;
            c in t.sealed &&
            var b, first := t.sealed[c].bundle, Step(t, Begin(w, now)).workers[w];
            && (first == Done(Token(c, now, Current)) <==>
                  t.conn.status != Revoked && (b.legacy || now < b.refreshAfter))
            && (first == Done(Failure) <==> t.conn.status == Revoked)
            && (first == DueForRefresh(c, now) <==>
                  t.conn.status != Revoked && !b.legacy && now >= b.refreshAfter)
  {
    EveryRunKeeps(s, run);
  }

  /** A call that is due gets the claim exactly on an active connection that still has the
      ciphertext it read and no lease younger than two minutes. */
  lemma ClaimsExactly(s: World, w: WorkerId)
    requires w in s.workers && s.workers[w].DueForRefresh?
    ensures var p, t := s.workers[w], Step(s, Act(w, Claim));
            && (t.workers[w] == Calling(p.cipher, p.now) <==>
                  && s.conn.status == Active && s.conn.cipher == p.cipher
                  && (s.conn.lease.Some? ==> p.now - s.conn.lease.value >= 120 * SECOND))
            && t.conn == (if t.workers[w] == Calling(p.cipher, p.now) then s.conn.(lease := Some(p.now)) else s.conn)
  {
  }

  /** The bundle's token may still be handed out at that time. */
  predicate Outlives(s: World, c: Cipher, at: int) {
    c in s.sealed && (s.sealed[c].bundle.legacy || s.sealed[c].bundle.expiresAt > at)
  }

  /** A reread that finds another ciphertext stored, or any once the worker's own was refused,
      whose token has not expired. */
  predicate FindsLatest(s: World, p: Phase, a: Action)
    requires p.Rereading? || p.Outdated? || p.Conflicted?
  {
    && a == Reread(true) && s.conn.status != Revoked && (p.Conflicted? || s.conn.cipher != p.cipher)
    && Outlives(s, s.conn.cipher, p.now)
  }

  /** The token with which an action ends a call that was under way, if it does. */
  function TokenAt(s: World, p: Phase, a: Action): Option<Outcome>
    requires !p.Done?
  {
    if a.Store? && p.Carrying? && s.conn == Conn(Active, p.cipher, Some(p.now)) then
      Some(Token(p.next, p.now, Replacement))
    else if (p.Rereading? || p.Outdated? || p.Conflicted?) && FindsLatest(s, p, a) then
      Some(Token(s.conn.cipher, p.now, Latest))
    else if && ((a.Release? && p.Failing?) || (a.Reread? && p.Rereading?))
            && Outlives(s, p.cipher, p.now + 30 * SECOND)
    then Some(Token(p.cipher, p.now, Fallback))
    else None
  }

  /** After any run a call under way ends in a token exactly with a store under its own claim,
      with a reread that finds an unexpired one, or, when the claim was taken or the refresh
      failed, with the old one while it has 30 seconds left. */
  lemma EndsInTokenExactly(s: World, run: seq<Event>, w: WorkerId, a: Action, o: Outcome)
    requires Kept(s) && w in Follow(s, run).workers && !Follow(s, run).workers[w].Done? && o.Token?
    ensures var t := Follow(s, run);
            Step(t, Act(w, a)).workers[w] == Done(o) <==> TokenAt(t, t.workers[w], a) == Some(o)
  {
    EveryRunKeeps(s, run);
    var t := Follow(s, run);
    assert PhaseSound(t, t.workers[w]);
    EndsInToken(t, w, a, o);
  }

  lemma EndsInToken(t: World, w: WorkerId, a: Action, o: Outcome)
    requires Kept(t) && w in t.workers && !t.workers[w].Done? && o.Token?
    ensures Step(t, Act(w, a)).workers[w] == Done(o) <==> TokenAt(t, t.workers[w], a) == Some(o)
  {
    match a
    case Expire =>
    case Claim =>
    case Classify =>
    case Answered(_) =>
    case Release =>
    case Deny =>
    case Store =>
    case Reread(_) =>
    case Fault =>
  }

  /** What a call may fail for although its old token would do: a crash, a refused grant, an
      answer that makes no bundle, a revoked connection, or a lost race for the store after
      which no usable token is found. */
  predicate Excuses(s: World, e: Event, w: WorkerId) {
    e.Act? && e.worker == w && w in s.workers &&
    var p := s.workers[w];
    match e.action
    case Fault => true
    case Classify => s.conn.status == Revoked
    case Answered(answer) =>
      p.Calling? &&
      (answer == InvalidGrant || (answer.Rotated? && !(answer.seals && Complete(answer.grant))))
    case Reread(_) => p.Conflicted? && !FindsLatest(s, p, e.action)
    case _ => false
  }

  predicate ExcusedIn(s: World, run: seq<Event>, w: WorkerId)
    decreases |run|
  {
    run != [] && (Excuses(s, run[0], w) || ExcusedIn(Step(s, run[0]), run[1..], w))
  }

  /** On the way to a token. */
  predicate Promising(s: World, p: Phase) {
    match p
    case Done(o) => o.Token?
    case DueForRefresh(c, now) => Outlives(s, c, now + 30 * SECOND)
    case Turned(c, now) => Outlives(s, c, now + 30 * SECOND)
    case Rereading(c, now) => Outlives(s, c, now + 30 * SECOND)
    case Calling(c, now) => Outlives(s, c, now + 30 * SECOND)
    case Failing(c, now) => Outlives(s, c, now + 30 * SECOND)
    case Carrying(_, _, _) => true
    case Conflicted(_, _) => true
    case _ => false
  }

  lemma SealedStays(s: World, e: Event, c: Cipher)
    requires Kept(s) && c in s.sealed
    ensures c in Step(s, e).sealed && Step(s, e).sealed[c] == s.sealed[c]
  {
  }

  lemma ActsAlone(s: World, v: WorkerId, a: Action, w: WorkerId)
    requires v in s.workers && w in s.workers && v != w
    ensures w in Step(s, Act(v, a)).workers && Step(s, Act(v, a)).workers[w] == s.workers[w]
  {
    match a
    case Expire =>
    case Claim =>
    case Classify =>
    case Answered(_) =>
    case Release =>
    case Deny =>
    case Store =>
    case Reread(_) =>
    case Fault =>
  }

  lemma OthersLeavePhase(s: World, e: Event, w: WorkerId)
    requires w in s.workers && !(e.Act? && e.worker == w)
    ensures w in Step(s, e).workers && Step(s, e).workers[w] == s.workers[w]
  {
    if e.Act? && e.worker in s.workers { ActsAlone(s, e.worker, e.action, w); }
  }

  lemma AnswerStaysPromising(s: World, w: WorkerId, answer: Answer)
    requires Kept(s) && w in s.workers && s.workers[w].Calling? && Promising(s, s.workers[w])
    requires !Excuses(s, Act(w, Answered(answer)), w)
    ensures Promising(Step(s, Act(w, Answered(answer))), Step(s, Act(w, Answered(answer))).workers[w])
  {
    SealedStays(s, Act(w, Answered(answer)), s.workers[w].cipher);
    if answer.Rotated? && FitsInt64(answer.grant.expiresIn) { NewBundleIsTimely(s.workers[w].now, answer.grant); }
  }

  lemma OldStaysPromising(s: World, w: WorkerId, a: Action)
    requires Kept(s) && w in s.workers && Promising(s, s.workers[w]) && !Excuses(s, Act(w, a), w)
    requires var p := s.workers[w];
             (!a.Answered? && p.Calling?) || p.Failing? || p.Rereading? || p.DueForRefresh? || p.Turned?
    ensures Promising(Step(s, Act(w, a)), Step(s, Act(w, a)).workers[w])
  {
    assert SoundBundle(s.sealed[s.workers[w].cipher].bundle);
    SealedStays(s, Act(w, a), s.workers[w].cipher);
  }

  lemma ActionStaysPromising(s: World, w: WorkerId, a: Action)
    requires Kept(s) && w in s.workers && Promising(s, s.workers[w]) && !Excuses(s, Act(w, a), w)
    ensures Promising(Step(s, Act(w, a)), Step(s, Act(w, a)).workers[w])
  {
    var p := s.workers[w];
    if a.Answered? && p.Calling? {
      AnswerStaysPromising(s, w, a.answer);
    } else if p.Conflicted? {
      if a.Reread? { assert SoundBundle(s.sealed[s.conn.cipher].bundle); }
    } else if !p.Done? && !p.Carrying? {
      OldStaysPromising(s, w, a);
    }
  }

  lemma StepStaysPromising(s: World, e: Event, w: WorkerId)
    requires Kept(s) && w in s.workers && Promising(s, s.workers[w]) && !Excuses(s, e, w)
    ensures w in Step(s, e).workers && Promising(Step(s, e), Step(s, e).workers[w])
  {
    var p := s.workers[w];
    if e.Act? && e.worker == w {
      ActionStaysPromising(s, w, e.action);
    } else {
      OthersLeavePhase(s, e, w);
      if !p.Done? && !p.Carrying? && !p.Conflicted? { SealedStays(s, e, p.cipher); }
    }
  }

  lemma {:induction false} PromiseIsKept(s: World, run: seq<Event>, w: WorkerId)
    requires Kept(s) && w in s.workers && Promising(s, s.workers[w]) && !ExcusedIn(s, run, w)
    ensures w in Follow(s, run).workers && Follow(s, run).workers[w] != Done(Failure)
    decreases |run|
  {
    if run != [] {
      StepStaysKept(s, run[0]);
      StepStaysPromising(s, run[0], w);
      PromiseIsKept(Step(s, run[0]), run[1..], w);
    }
  }

  /** A token with more than 30 seconds left is never withheld: however workers, the provider
      and other people interleave, a call that begins while one is stored does not end in
      failure without an excuse of its own. */
  lemma UnexpiredTokenIsServed(s: World, run: seq<Event>, w: WorkerId, now: int)
    requires Kept(s) && w !in s.workers && s.conn.status != Revoked && Outlives(s, s.conn.cipher, now + 30 * SECOND)
    requires !ExcusedIn(Step(s, Begin(w, now)), run, w)
    ensures var t := Follow(Step(s, Begin(w, now)), run); w in t.workers && t.workers[w] != Done(Failure)
  {
    StepStaysKept(s, Begin(w, now));
    PromiseIsKept(Step(s, Begin(w, now)), run, w);
  }

  /** Once a connection is blocked or revoked no refresh stores anything and nothing revives it. */
  lemma {:induction false} BlockedIsFinal(s: World, run: seq<Event>)
    requires s.conn.status != Active
    ensures Follow(s, run).conn.status != Active
    ensures Follow(s, run).history == s.history && Follow(s, run).conn.cipher == s.conn.cipher
    decreases |run|
  {
    if run != [] {
      BlockedIsFinal(Step(s, run[0]), run[1..]);
    }
  }

  lemma {:induction false} RevokedIsFinal(s: World, run: seq<Event>)
    requires s.conn.status == Revoked
    ensures Follow(s, run).conn.status == Revoked
    decreases |run|
  {
    if run != [] {
      assert Step(s, run[0]).conn.status == Revoked;
      RevokedIsFinal(Step(s, run[0]), run[1..]);
    }
  }

  /** After a disconnect no new call ever gets a token; after a rejected one no refresh is stored,
      but a token already stored is still tried. */
  lemma DisconnectedServesNobody(s: World, run: seq<Event>, w: WorkerId, now: int)
    ensures var t := Follow(Step(s, Disconnect), run);
            w !in t.workers ==> Step(t, Begin(w, now)).workers[w] == Done(Failure)
    ensures Step(s, Unauthorized).conn == Conn(if s.conn.status == Revoked then Revoked else Error, s.conn.cipher,
                                               if s.conn.status == Revoked then s.conn.lease else None)
  {
    RevokedIsFinal(Step(s, Disconnect), run);
  }

  lemma StepKeepsHolder(s: World, e: Event)
    requires s.holder.Some? <==> s.conn.lease.Some?
    requires s.conn.lease.Some? ==> s.conn.status == Active
    ensures Step(s, e).holder.Some? <==> Step(s, e).conn.lease.Some?
    ensures Step(s, e).conn.lease.Some? ==> Step(s, e).conn.status == Active
  {
  }

  /** In every run somebody is recorded as the holder exactly while there is a lease. */
  lemma {:induction false} HolderExactly(s: World, run: seq<Event>)
    requires s.holder.Some? <==> s.conn.lease.Some?
    requires s.conn.lease.Some? ==> s.conn.status == Active
    ensures Follow(s, run).holder.Some? <==> Follow(s, run).conn.lease.Some?
    decreases |run|
  {
    if run != [] {
      StepKeepsHolder(s, run[0]);
      HolderExactly(Step(s, run[0]), run[1..]);
    }
  }

  // ---------- a claim that is no longer held ----------

  /** Phases that still end in a conditional write of the claim. */
  predicate InFlight(p: Phase) {
    p.Calling? || p.Failing? || p.Discarding? || p.Refused? || p.Carrying?
  }

  predicate ClaimGranted(s: World, e: Event) {
    && e.Act? && e.action.Claim? && e.worker in s.workers
    && var p := s.workers[e.worker]; p.DueForRefresh? && Claimable(s.conn, p.cipher, p.now)
  }

  /** Every granted claim has a stamp of its own. */
  predicate OwnStamps(s: World, run: seq<Event>)
    decreases |run|
  {
    run != [] ==>
      && (ClaimGranted(s, run[0]) ==> s.workers[run[0].worker].now !in s.stamps)
      && OwnStamps(Step(s, run[0]), run[1..])
  }

  ghost predicate Stamped(s: World) {
    && (forall w :: w in s.workers && InFlight(s.workers[w]) ==> s.workers[w].now in s.stamps)
    && (forall w :: w in s.workers && InFlight(s.workers[w]) && s.conn.lease == Some(s.workers[w].now) ==>
          s.holder == Some(w))
    && (s.conn.lease.Some? ==> s.conn.status == Active && s.conn.lease.value in s.stamps)
  }

  /** A worker moves without claiming: the lease stays as it is or ends. */
  lemma MovedStaysStamped(s: World, t: World, w: WorkerId)
    requires Stamped(s) && w in t.workers && t.workers == s.workers[w := t.workers[w]] && t.stamps == s.stamps
    requires (t.conn == s.conn && t.holder == s.holder) || t.conn.lease == None
    requires InFlight(t.workers[w]) ==>
               w in s.workers && InFlight(s.workers[w]) && s.workers[w].now == t.workers[w].now
    ensures Stamped(t)
  {
    forall v | v in t.workers && InFlight(t.workers[v])
      ensures t.workers[v].now in t.stamps && (t.conn.lease == Some(t.workers[v].now) ==> t.holder == Some(v))
    {
      assert v in s.workers && InFlight(s.workers[v]) && s.workers[v].now == t.workers[v].now;
    }
  }

  lemma ClaimStaysStamped(s: World, w: WorkerId)
    requires Stamped(s) && ClaimGranted(s, Act(w, Claim)) && s.workers[w].now !in s.stamps
    ensures Stamped(Step(s, Act(w, Claim)))
  {
    var t := Step(s, Act(w, Claim));
    forall v | v in t.workers && InFlight(t.workers[v])
      ensures t.workers[v].now in t.stamps && (t.conn.lease == Some(t.workers[v].now) ==> t.holder == Some(v))
    {
      if v != w { assert t.workers[v] == s.workers[v] && s.workers[v].now in s.stamps; }
    }
  }

  lemma AnswerMoves(s: World, w: WorkerId, answer: Answer)
    requires w in s.workers && s.workers[w].Calling?
    ensures var t := Step(s, Act(w, Answered(answer)));
            && t.workers == s.workers[w := t.workers[w]] && t.stamps == s.stamps
            && t.conn == s.conn && t.holder == s.holder
            && InFlight(t.workers[w]) && t.workers[w].now == s.workers[w].now
  {
    assert s.workers == s.workers[w := s.workers[w]];
  }

  /** Outside a granted claim and a provider answer, a step moves one worker and at most ends the lease. */
  lemma OtherMoves(s: World, w: WorkerId, a: Action)
    requires w in s.workers && !a.Answered? && !ClaimGranted(s, Act(w, a))
    requires s.conn.lease.Some? ==> s.conn.status == Active
    ensures var t := Step(s, Act(w, a));
            && t.workers == s.workers[w := t.workers[w]] && t.stamps == s.stamps
            && ((t.conn == s.conn && t.holder == s.holder) || t.conn.lease == None)
            && (InFlight(t.workers[w]) ==> t.workers[w] == s.workers[w])
  {
    assert s.workers == s.workers[w := s.workers[w]];
  }

  lemma StepStaysStamped(s: World, e: Event)
    requires Stamped(s) && (ClaimGranted(s, e) ==> s.workers[e.worker].now !in s.stamps)
    ensures Stamped(Step(s, e))
  {
    var t := Step(s, e);
    if e.Act? && e.worker in s.workers {
      var w, p := e.worker, s.workers[e.worker];
      if ClaimGranted(s, e) { ClaimStaysStamped(s, w); }
      else if e.action.Answered? {
        if p.Calling? {
          AnswerMoves(s, w, e.action.answer);
          MovedStaysStamped(s, t, w);
        }
      } else {
        OtherMoves(s, w, e.action);
        MovedStaysStamped(s, t, w);
      }
    } else if e.Begin? && t != s {
      MovedStaysStamped(s, t, e.worker);
    }
  }

  lemma {:induction false} RunStaysStamped(s: World, run: seq<Event>)
    requires Stamped(s) && OwnStamps(s, run)
    ensures Stamped(Follow(s, run))
    decreases |run|
  {
    if run != [] {
      StepStaysStamped(s, run[0]);
      RunStaysStamped(Step(s, run[0]), run[1..]);
    }
  }

  /** A worker whose claim was taken over, given back or cut off can no longer change the
      connection, whatever it learned: above all a stale invalid_grant does not block it. */
  lemma StaleClaimsAreInert(b: Bundle, run: seq<Event>, w: WorkerId, a: Action)
    requires OwnStamps(Start(b), run)
    requires var s := Follow(Start(b), run);
             w in s.workers && InFlight(s.workers[w]) && s.holder != Some(w)
    ensures Step(Follow(Start(b), run), Act(w, a)).conn == Follow(Start(b), run).conn
  {
    RunStaysStamped(Start(b), run);
  }

  // ---------- false alarms ----------

  /** The provider rotates exactly the token it last gave out, until the grant is withdrawn. */
  predicate Lawful(s: World, e: Event) {
    e.Act? && e.action.Answered? && e.worker in s.workers && s.workers[e.worker].Calling? ==>
      var accepted := !s.withdrawn && s.live == s.workers[e.worker].cipher;
      match e.action.answer
      case Transient => true
      case InvalidGrant => !accepted
      case RotationLost => accepted
      case Rotated(_, _) => accepted
  }

  /** What may go wrong in a run: a worker crashes with a new token in hand, the answer to a
      rotation is lost, it makes no bundle that can be stored, or a claim is granted by whose
      clock a worker in flight has outlived its lease. */
  datatype Disturbances = Disturbances(
    carrierCrash: bool, lostRotation: bool, unusableAnswer: bool, overtakenHolder: bool)

  const UNDISTURBED := Disturbances(false, false, false, false)

  predicate Permitted(d: Disturbances, s: World, e: Event) {
    e.Act? && e.worker in s.workers ==>
      var p := s.workers[e.worker];
      && (e.action.Fault? && p.Carrying? ==> d.carrierCrash)
      && (e.action.Answered? && p.Calling? && e.action.answer == RotationLost ==> d.lostRotation)
      && (e.action.Answered? && p.Calling? && e.action.answer.Rotated? ==>
            (Complete(e.action.answer.grant) && e.action.answer.seals) || d.unusableAnswer)
      && (ClaimGranted(s, e) ==> Respectful(s, p.now) || d.overtakenHolder)
  }

  /** By this clock every worker in flight is within its own lease. */
  predicate Respectful(s: World, now: int) {
    forall v :: v in s.workers && InFlight(s.workers[v]) ==> now < s.workers[v].now + LEASE
  }

  predicate Calm(d: Disturbances, s: World, run: seq<Event>)
    decreases |run|
  {
    run != [] ==> Lawful(s, run[0]) && Permitted(d, s, run[0]) && Calm(d, Step(s, run[0]), run[1..])
  }

  predicate Carries(p: Phase, c: Cipher) { p.Carrying? && p.next == c }

  ghost predicate LiveTokenKept(s: World) {
    s.live == s.conn.cipher || exists w :: w in s.workers && Carries(s.workers[w], s.live)
  }

  ghost predicate Healthy(s: World) {
    s.conn.status == Active ==>
      && (forall w :: w in s.workers && InFlight(s.workers[w]) ==>
            s.holder == Some(w) && Held(s.conn, s.workers[w].cipher, s.workers[w].now))
      && (forall w :: w in s.workers && s.workers[w].Carrying? ==> Carries(s.workers[w], s.live))
      && LiveTokenKept(s)
      && (forall w :: w in s.workers && s.workers[w].Refused? ==> s.withdrawn)
      && (forall w :: w in s.workers && s.workers[w].Discarding? ==> false)
  }

  /** The only worker in flight, if any, is the holder: the others carry nothing. */
  lemma OthersAreIdle(s: World, w: WorkerId, v: WorkerId)
    requires Healthy(s) && s.conn.status == Active
    requires w in s.workers && v in s.workers && InFlight(s.workers[w]) && v != w
    ensures !InFlight(s.workers[v])
  {
  }

  /** A worker without a claim changes itself, blocks the connection or is granted a claim. */
  lemma OutsiderMoves(s: World, w: WorkerId, a: Action)
    requires w in s.workers && !InFlight(s.workers[w])
    ensures var t := Step(s, Act(w, a));
            && t.workers == s.workers[w := t.workers[w]] && t.live == s.live && t.withdrawn == s.withdrawn
            && (ClaimGranted(s, Act(w, a)) ==>
                  && t.conn == Leased(s.conn, s.workers[w].now) && t.holder == Some(w)
                  && t.workers[w] == Calling(s.workers[w].cipher, s.workers[w].now))
            && (!ClaimGranted(s, Act(w, a)) ==>
                  && ((t.conn == s.conn && t.holder == s.holder) || t.conn.status != Active)
                  && !InFlight(t.workers[w]))
  {
    assert s.workers == s.workers[w := s.workers[w]];
  }

  lemma OutsiderStaysHealthy(s: World, t: World, w: WorkerId)
    requires Healthy(s) && s.conn.status == Active
    requires w in s.workers && !InFlight(s.workers[w])
    requires w in t.workers && t.workers == s.workers[w := t.workers[w]]
    requires t.live == s.live && t.withdrawn == s.withdrawn
    requires (t.conn == s.conn && t.holder == s.holder && !InFlight(t.workers[w])) || t.conn.status != Active
    ensures Healthy(t)
  {
    if s.live != s.conn.cipher {
      var v :| v in s.workers && Carries(s.workers[v], s.live);
      assert v in t.workers && Carries(t.workers[v], t.live);
    }
  }

  /** A claim granted while nobody is in flight makes its worker the only one. */
  lemma CalmClaimIsHealthy(s: World, t: World, w: WorkerId, now: int)
    requires Healthy(s) && s.conn.status == Active
    requires forall v :: v in s.workers ==> !InFlight(s.workers[v])
    requires t.workers == s.workers[w := Calling(s.conn.cipher, now)]
    requires t.live == s.live && t.withdrawn == s.withdrawn
    requires t.conn == Leased(s.conn, now) && t.holder == Some(w)
    ensures Healthy(t)
  {
    assert s.live == s.conn.cipher;
  }

  /** What the holder may do in a calm run: stay in flight with its claim, or finish. */
  lemma HolderStaysHealthy(s: World, t: World, w: WorkerId)
    requires Healthy(s) && s.conn.status == Active
    requires w in s.workers && InFlight(s.workers[w])
    requires w in t.workers && t.workers == s.workers[w := t.workers[w]]
    requires t.conn.status == Active ==>
               && (InFlight(t.workers[w]) ==>
                     && t.conn == s.conn && t.holder == s.holder
                     && t.workers[w].cipher == s.workers[w].cipher && t.workers[w].now == s.workers[w].now)
               && !t.workers[w].Discarding? && (t.workers[w].Refused? ==> t.withdrawn)
               && (if t.workers[w].Carrying? then t.workers[w].next == t.live else t.live == t.conn.cipher)
    ensures Healthy(t)
  {
    forall v | v in s.workers && v != w ensures !InFlight(s.workers[v]) && t.workers[v] == s.workers[v] {
      OthersAreIdle(s, w, v);
    }
    if t.conn.status == Active && t.workers[w].Carrying? {
      assert Carries(t.workers[w], t.live);
    }
  }

  lemma HolderMoves(s: World, w: WorkerId, a: Action)
    requires Healthy(s) && Lawful(s, Act(w, a)) && Permitted(UNDISTURBED, s, Act(w, a)) && s.conn.status == Active
    requires w in s.workers && InFlight(s.workers[w])
    ensures Healthy(Step(s, Act(w, a)))
  {
    var p, t := s.workers[w], Step(s, Act(w, a));
    assert s.workers == s.workers[w := p];
    assert Held(s.conn, p.cipher, p.now);
    if p.Carrying? {
      assert Carries(p, s.live);
    } else {
      assert s.live == s.conn.cipher;
    }
    HolderStaysHealthy(s, t, w);
  }

  /** The lease keeps claims apart: one is granted only if nobody within his lease is in flight. */
  lemma LeaseExcludes(s: World, w: WorkerId)
    requires Healthy(s) && ClaimGranted(s, Act(w, Claim)) && Respectful(s, s.workers[w].now)
    ensures forall v :: v in s.workers ==> !InFlight(s.workers[v])
  {
  }

  lemma StepStaysHealthy(s: World, e: Event)
    requires Healthy(s) && Lawful(s, e) && Permitted(UNDISTURBED, s, e)
    ensures Healthy(Step(s, e))
  {
    var t := Step(s, e);
    if s.conn.status != Active {
      BlockedIsFinal(s, [e]);
      assert [e][1..] == [] && Follow(s, [e]) == Follow(t, []);
    } else if e.Act? && e.worker in s.workers {
      if InFlight(s.workers[e.worker]) { HolderMoves(s, e.worker, e.action); }
      else {
        OutsiderMoves(s, e.worker, e.action);
        if ClaimGranted(s, e) {
          LeaseExcludes(s, e.worker);
          CalmClaimIsHealthy(s, t, e.worker, s.workers[e.worker].now);
        }
        else { OutsiderStaysHealthy(s, t, e.worker); }
      }
    } else if t.conn.status == Active && s.live != s.conn.cipher {
      var v :| v in s.workers && Carries(s.workers[v], s.live);
      assert v in t.workers && Carries(t.workers[v], t.live);
    }
  }

  lemma {:induction false} RunStaysHealthy(s: World, run: seq<Event>)
    requires Healthy(s) && Calm(UNDISTURBED, s, run)
    ensures Healthy(Follow(s, run))
    decreases |run|
  {
    if run != [] {
      StepStaysHealthy(s, run[0]);
      RunStaysHealthy(Step(s, run[0]), run[1..]);
    }
  }

  /** A refused refresh blocks the connection although the grant stands. */
  predicate FalseAlarm(s: World, w: WorkerId) {
    Step(s, Act(w, Deny)).conn.status != s.conn.status && !s.withdrawn
  }

  /** In an undisturbed run the refresh token the provider accepts is stored or in the hands of
      the holder, and only a withdrawn grant lets a refused refresh block the connection. */
  lemma NoFalseAlarms(b: Bundle, run: seq<Event>, w: WorkerId)
    requires Calm(UNDISTURBED, Start(b), run)
    ensures var s := Follow(Start(b), run);
            (s.conn.status == Active ==> LiveTokenKept(s)) && !FalseAlarm(s, w)
  {
    RunStaysHealthy(Start(b), run);
  }

  lemma FollowFirst(s: World, e: Event, rest: seq<Event>)
    ensures Follow(s, [e] + rest) == Follow(Step(s, e), rest)
    ensures forall d :: Calm(d, s, [e] + rest) <==> Lawful(s, e) && Permitted(d, s, e) && Calm(d, Step(s, e), rest)
    ensures OwnStamps(s, [e] + rest) <==>
              (ClaimGranted(s, e) ==> s.workers[e.worker].now !in s.stamps) && OwnStamps(Step(s, e), rest)
  {
    assert ([e] + rest)[1..] == rest;
  }

  /** Worker 0 stalled before its request and its lease is over; worker 1 has taken over. */
  function Overtaken(b: Bundle, now: int): World {
    Start(b).(conn := Conn(Active, 0, Some(now + LEASE)), holder := Some(1), stamps := {now, now + LEASE},
              workers := map[0 := Calling(0, now), 1 := Calling(0, now + LEASE)])
  }

  function Overtaking(now: int): seq<Event> {
    [Begin(0, now), Act(0, Claim), Begin(1, now + LEASE), Act(1, Claim)]
  }

  lemma FirstClaim(b: Bundle, now: int)
    requires !b.legacy && Due(b, now)
    ensures var s := Step(Start(b), Begin(0, now));
            && s == Start(b).(workers := map[0 := DueForRefresh(0, now)])
            && Step(s, Act(0, Claim)) ==
               Start(b).(conn := Conn(Active, 0, Some(now)), holder := Some(0), stamps := {now},
                         workers := map[0 := Calling(0, now)])
  {
  }

  lemma OvertakingReaches(b: Bundle, now: int)
    requires !b.legacy && Due(b, now)
    ensures Follow(Start(b), Overtaking(now)) == Overtaken(b, now)
    ensures OwnStamps(Start(b), Overtaking(now))
  {
    FirstClaim(b, now);
    var s0, e0, e1, e2, e3 := Start(b), Begin(0, now), Act(0, Claim), Begin(1, now + LEASE), Act(1, Claim);
    var s2 := Step(Step(s0, e0), e1);
    var s3 := Step(s2, e2);
    assert s3 == s2.(workers := map[0 := Calling(0, now), 1 := DueForRefresh(0, now + LEASE)]);
    assert Step(s3, e3) == Overtaken(b, now);
    FollowFirst(s3, e3, []);
    FollowFirst(s2, e2, [e3]);
    FollowFirst(Step(s0, e0), e1, [e2, e3]);
    FollowFirst(s0, e0, [e1, e2, e3]);
    assert Overtaking(now) == [e0] + ([e1] + ([e2] + [e3]));
  }

  /** Stamps of their own cannot be dropped: a claim with the stamp of an overtaken one lets
      the stale worker's invalid_grant block the connection while its holder has a new token. */
  lemma SharedStampMisfires(b: Bundle, now: int, grant: Grant)
    requires !b.legacy && Due(b, now) && Complete(grant) && FitsInt64(grant.expiresIn)
    ensures var s := Follow(Start(b), Overtaking(now));
            var released := Step(Step(s, Act(1, Answered(Transient))), Act(1, Release));
            var again := Step(Step(released, Begin(2, now)), Act(2, Claim));
            var rotated := Step(again, Act(2, Answered(Rotated(grant, true))));
            var refused := Step(rotated, Act(0, Answered(InvalidGrant)));
            && 0 in refused.workers && refused.workers[0].Refused? && refused.holder == Some(2)
            && refused.conn.status == Active && Step(refused, Act(0, Deny)).conn.status == Error
  {
    OvertakingReaches(b, now);
    var s := Overtaken(b, now);
    var failing := Step(s, Act(1, Answered(Transient)));
    assert failing == s.(workers := map[0 := Calling(0, now), 1 := Failing(0, now + LEASE)]);
    var released := Step(failing, Act(1, Release));
    assert released.conn == Conn(Active, 0, None) && released.workers[0] == Calling(0, now) && 2 !in released.workers;
    ClaimAgain(released, now, grant);
  }

  lemma ClaimAgain(s: World, now: int, grant: Grant)
    requires s.conn == Conn(Active, 0, None) && 0 in s.workers && s.workers[0] == Calling(0, now) && 2 !in s.workers
    requires s.live == 0 && !s.withdrawn && s.minted == 1 && Complete(grant) && FitsInt64(grant.expiresIn)
    requires 0 in s.sealed && !s.sealed[0].bundle.legacy && Due(s.sealed[0].bundle, now)
    ensures var again := Step(Step(s, Begin(2, now)), Act(2, Claim));
            var rotated := Step(again, Act(2, Answered(Rotated(grant, true))));
            var refused := Step(rotated, Act(0, Answered(InvalidGrant)));
            && 0 in refused.workers && refused.workers[0].Refused? && refused.holder == Some(2)
            && refused.conn.status == Active && Step(refused, Act(0, Deny)).conn.status == Error
  {
    var begun := Step(s, Begin(2, now));
    assert begun.workers == s.workers[2 := DueForRefresh(0, now)];
    var again := Step(begun, Act(2, Claim));
    assert again.conn == Conn(Active, 0, Some(now)) && again.workers == s.workers[2 := Calling(0, now)];
    var rotated := Step(again, Act(2, Answered(Rotated(grant, true))));
    assert rotated.conn == again.conn && rotated.live == 1 && rotated.workers[0] == Calling(0, now);
    var refused := Step(rotated, Act(0, Answered(InvalidGrant)));
    assert refused.workers[0] == Refused(0, now) && refused.conn == again.conn;
  }

  // ---------- one disturbance of each kind is enough ----------

  lemma {:induction false} RunsJoin(d: Disturbances, s: World, a: seq<Event>, b: seq<Event>)
    ensures Follow(s, a + b) == Follow(Follow(s, a), b)
    ensures Calm(d, s, a + b) <==> Calm(d, s, a) && Calm(d, Follow(s, a), b)
    decreases |a|
  {
    if a == [] {
      assert a + b == b;
    } else {
      assert (a + b)[1..] == a[1..] + b;
      RunsJoin(d, Step(s, a[0]), a[1..], b);
    }
  }

  /** The first worker claims the refresh. */
  function Claiming(now: int): seq<Event> { [Begin(0, now)] + [Act(0, Claim)] }

  function AfterClaim(b: Bundle, now: int): World {
    Start(b).(conn := Conn(Active, 0, Some(now)), holder := Some(0), stamps := {now},
              workers := map[0 := Calling(0, now)])
  }

  lemma ClaimingReaches(d: Disturbances, b: Bundle, now: int)
    requires !b.legacy && Due(b, now)
    ensures Follow(Start(b), Claiming(now)) == AfterClaim(b, now) && Calm(d, Start(b), Claiming(now))
  {
    FirstClaim(b, now);
    var s := Step(Start(b), Begin(0, now));
    FollowFirst(Start(b), Begin(0, now), [Act(0, Claim)]);
    FollowFirst(s, Act(0, Claim), []);
    assert [Act(0, Claim)] + [] == [Act(0, Claim)];
  }

  /** A second worker claims with the old token, and is refused. */
  function Refusal(now: int): seq<Event> {
    [Begin(1, now)] + ([Act(1, Claim)] + [Act(1, Answered(InvalidGrant))])
  }

  lemma SuccessorIsRefused(d: Disturbances, s: World, now: int)
    requires s.conn.status == Active && s.conn.cipher == 0 && 0 in s.sealed && 1 !in s.workers
    requires !s.sealed[0].bundle.legacy && Due(s.sealed[0].bundle, now) && Claimable(s.conn, 0, now)
    requires s.live != 0 && !s.withdrawn && (Respectful(s, now) || d.overtakenHolder)
    ensures Calm(d, s, Refusal(now)) && FalseAlarm(Follow(s, Refusal(now)), 1)
    ensures Follow(s, Refusal(now)).live == s.live
    ensures forall v :: v in s.workers ==>
              v in Follow(s, Refusal(now)).workers && Follow(s, Refusal(now)).workers[v] == s.workers[v]
  {
    var s1 := Step(s, Begin(1, now));
    assert s1 == s.(workers := s.workers[1 := DueForRefresh(0, now)]);
    var s2 := Step(s1, Act(1, Claim));
    assert s2.conn == Leased(s.conn, now) && s2.workers == s.workers[1 := Calling(0, now)];
    var s3 := Step(s2, Act(1, Answered(InvalidGrant)));
    assert s3 == s2.(workers := s.workers[1 := Refused(0, now)]);
    assert Respectful(s, now) ==> Respectful(s1, now);
    FollowFirst(s2, Act(1, Answered(InvalidGrant)), []);
    FollowFirst(s1, Act(1, Claim), [Act(1, Answered(InvalidGrant))]);
    FollowFirst(s, Begin(1, now), [Act(1, Claim)] + [Act(1, Answered(InvalidGrant))]);
    assert [Act(1, Answered(InvalidGrant))] + [] == [Act(1, Answered(InvalidGrant))];
  }

  /** What happens to the first worker's answer, by kind of disturbance. */
  function Mishap(d: Disturbances, grant: Grant): seq<Event> {
    if d.lostRotation then [Act(0, Answered(RotationLost))] + [Act(0, Release)]
    else if d.unusableAnswer then [Act(0, Answered(Rotated(grant, false)))] + [Act(0, Release)]
    else if d.carrierCrash then [Act(0, Answered(Rotated(grant, true)))] + [Act(0, Fault)]
    else [Act(0, Answered(Rotated(grant, true)))]
  }

  lemma TwoSteps(s: World, e: Event, f: Event)
    ensures Follow(s, [e] + [f]) == Step(Step(s, e), f)
    ensures forall d :: Calm(d, s, [e] + [f]) <==>
              Lawful(s, e) && Permitted(d, s, e) && Lawful(Step(s, e), f) && Permitted(d, Step(s, e), f)
  {
    FollowFirst(s, e, [f]);
    FollowFirst(Step(s, e), f, []);
    assert [f] + [] == [f];
    assert Follow(Step(Step(s, e), f), []) == Step(Step(s, e), f);
  }

  /** The live token is gone from the row and the row's lease over, or to be over. */
  ghost predicate TokenLost(d: Disturbances, s: World, b: Bundle, now: int) {
    && s.conn.status == Active && s.conn.cipher == 0 && s.live == 1 && !s.withdrawn
    && 0 in s.sealed && s.sealed[0].bundle == b && 1 !in s.workers
    && Claimable(s.conn, 0, now + LEASE) && (Respectful(s, now + LEASE) || d.overtakenHolder)
  }

  lemma ReleaseLosesTheToken(d: Disturbances, b: Bundle, now: int, grant: Grant)
    requires (d.lostRotation || d.unusableAnswer) && Complete(grant) && FitsInt64(grant.expiresIn)
    ensures Calm(d, AfterClaim(b, now), Mishap(d, grant))
    ensures TokenLost(d, Follow(AfterClaim(b, now), Mishap(d, grant)), b, now)
  {
    var s := AfterClaim(b, now);
    if d.lostRotation {
      TwoSteps(s, Act(0, Answered(RotationLost)), Act(0, Release));
      assert Step(s, Act(0, Answered(RotationLost))).workers == map[0 := Failing(0, now)];
    } else {
      TwoSteps(s, Act(0, Answered(Rotated(grant, false))), Act(0, Release));
      assert Step(s, Act(0, Answered(Rotated(grant, false)))).workers == map[0 := Discarding(0, now)];
    }
  }

  lemma RotationIsCarried(b: Bundle, now: int, grant: Grant)
    requires Complete(grant) && FitsInt64(grant.expiresIn)
    ensures var s, e := AfterClaim(b, now), Act(0, Answered(Rotated(grant, true)));
            && Lawful(s, e) && (forall d :: Permitted(d, s, e))
            && Step(s, e).workers == map[0 := Carrying(0, now, 1)] && Step(s, e).conn == s.conn
            && Step(s, e).live == 1 && !Step(s, e).withdrawn
            && 0 in Step(s, e).sealed && Step(s, e).sealed[0] == s.sealed[0]
  {
  }

  lemma CarrierLosesTheToken(d: Disturbances, b: Bundle, now: int, grant: Grant)
    requires !d.lostRotation && !d.unusableAnswer && (d.carrierCrash || d.overtakenHolder)
    requires Complete(grant) && FitsInt64(grant.expiresIn)
    ensures Calm(d, AfterClaim(b, now), Mishap(d, grant))
    ensures TokenLost(d, Follow(AfterClaim(b, now), Mishap(d, grant)), b, now)
    ensures !d.carrierCrash ==>
              Follow(AfterClaim(b, now), Mishap(d, grant)).workers == map[0 := Carrying(0, now, 1)]
  {
    var s, e := AfterClaim(b, now), Act(0, Answered(Rotated(grant, true)));
    RotationIsCarried(b, now, grant);
    if d.carrierCrash {
      TwoSteps(s, e, Act(0, Fault));
    } else {
      FollowFirst(s, e, []);
      assert [e] + [] == [e];
    }
  }

  /** The lease ends with a release, or by time: the worker crashed, or stalls before its store write. */
  lemma MishapLosesTheToken(d: Disturbances, b: Bundle, now: int, grant: Grant)
    requires d != UNDISTURBED && Complete(grant) && FitsInt64(grant.expiresIn)
    ensures var s := Follow(AfterClaim(b, now), Mishap(d, grant));
            && Calm(d, AfterClaim(b, now), Mishap(d, grant)) && TokenLost(d, s, b, now)
            && (d == Disturbances(false, false, false, true) ==> s.workers == map[0 := Carrying(0, now, 1)])
  {
    if d.lostRotation || d.unusableAnswer {
      ReleaseLosesTheToken(d, b, now, grant);
    } else {
      CarrierLosesTheToken(d, b, now, grant);
    }
  }

  function AlarmRun(d: Disturbances, now: int, grant: Grant): seq<Event> {
    Claiming(now) + (Mishap(d, grant) + Refusal(now + LEASE))
  }

  /** Each kind of disturbance alone leads to a false alarm, from any bundle that is due. */
  lemma DisturbanceRaisesFalseAlarm(d: Disturbances, b: Bundle, now: int, grant: Grant)
    requires d != UNDISTURBED && !b.legacy && Due(b, now) && Complete(grant) && FitsInt64(grant.expiresIn)
    ensures Calm(d, Start(b), AlarmRun(d, now, grant))
    ensures FalseAlarm(Follow(Start(b), AlarmRun(d, now, grant)), 1)
    ensures d == Disturbances(false, false, false, true) ==>
              var s := Follow(Start(b), AlarmRun(d, now, grant));
              0 in s.workers && Carries(s.workers[0], s.live)
  {
    ClaimingReaches(d, b, now);
    MishapLosesTheToken(d, b, now, grant);
    var s := Follow(AfterClaim(b, now), Mishap(d, grant));
    SuccessorIsRefused(d, s, now + LEASE);
    RunsJoin(d, Start(b), Claiming(now), Mishap(d, grant) + Refusal(now + LEASE));
    RunsJoin(d, AfterClaim(b, now), Mishap(d, grant), Refusal(now + LEASE));
  }

  /** A worker that has its answer in time but stalls before storing it past its lease: the
      successor is refused the old token and blocks the connection, while the new one, the only
      one the provider accepts, is still in the first worker's hands. */
  lemma SlowHolderRaisesFalseAlarm(b: Bundle, now: int, grant: Grant)
    requires !b.legacy && Due(b, now) && Complete(grant) && FitsInt64(grant.expiresIn)
    ensures var d := Disturbances(false, false, false, true);
            var s := Follow(Start(b), AlarmRun(d, now, grant));
            && Calm(d, Start(b), AlarmRun(d, now, grant))
            && FalseAlarm(s, 1) && 0 in s.workers && Carries(s.workers[0], s.live)
  {
    DisturbanceRaisesFalseAlarm(Disturbances(false, false, false, true), b, now, grant);
  }

  ghost predicate OnlyWithdrawalBlocks(d: Disturbances) {
    forall b, run, w :: SoundBundle(b) && Calm(d, Start(b), run) ==> !FalseAlarm(Follow(Start(b), run), w)
  }

  /** Main result: a refused refresh never blocks a connection whose grant stands, over all runs,
      exactly when none of the four disturbances can happen. */
  lemma OnlyWithdrawalBlocksExactly(d: Disturbances)
    ensures OnlyWithdrawalBlocks(d) <==>
              !d.carrierCrash && !d.lostRotation && !d.unusableAnswer && !d.overtakenHolder
  {
    if d == UNDISTURBED {
      forall b, run, w | SoundBundle(b) && Calm(d, Start(b), run) ensures !FalseAlarm(Follow(Start(b), run), w) {
        NoFalseAlarms(b, run, w);
      }
    } else {
      var b, grant := Bundle("a", "r", 600 * SECOND, 300 * SECOND, 0, false), Grant("a", "r", 600);
      DisturbanceRaisesFalseAlarm(d, b, 300 * SECOND, grant);
      assert SoundBundle(b);
    }
  }

  // ---------- stamps of one's own ----------

  /** A worker whose claim is no longer held changes the connection all the same. */
  predicate StaleWrite(s: World, w: WorkerId, a: Action) {
    && w in s.workers && InFlight(s.workers[w]) && s.holder != Some(w)
    && Step(s, Act(w, a)).conn != s.conn
  }

  /** `shared` permits two granted claims to have the same stamp. */
  ghost predicate StaleClaimsNeverWrite(shared: bool) {
    forall b, run, w, a :: SoundBundle(b) && (shared || OwnStamps(Start(b), run)) ==>
      !StaleWrite(Follow(Start(b), run), w, a)
  }

  /** The run of SharedStampMisfires up to the stale worker's write. */
  function SharingRun(now: int, grant: Grant): seq<Event> {
    Overtaking(now) +
    ([Act(1, Answered(Transient))] + [Act(1, Release)] + [Begin(2, now)] + [Act(2, Claim)] +
     [Act(2, Answered(Rotated(grant, true)))] + [Act(0, Answered(InvalidGrant))])
  }

  lemma SixSteps(s: World, e0: Event, e1: Event, e2: Event, e3: Event, e4: Event, e5: Event)
    ensures Follow(s, [e0] + [e1] + [e2] + [e3] + [e4] + [e5]) ==
            Step(Step(Step(Step(Step(Step(s, e0), e1), e2), e3), e4), e5)
  {
    var d := UNDISTURBED;
    RunsJoin(d, s, [e0] + [e1] + [e2] + [e3] + [e4], [e5]);
    RunsJoin(d, s, [e0] + [e1] + [e2] + [e3], [e4]);
    RunsJoin(d, s, [e0] + [e1] + [e2], [e3]);
    RunsJoin(d, s, [e0] + [e1], [e2]);
    RunsJoin(d, s, [e0], [e1]);
    forall t, e ensures Follow(t, [e]) == Step(t, e) {
      FollowFirst(t, e, []);
      assert [e] + [] == [e];
    }
  }

  lemma SharedStampWrites(b: Bundle, now: int, grant: Grant)
    requires !b.legacy && Due(b, now) && Complete(grant) && FitsInt64(grant.expiresIn)
    ensures StaleWrite(Follow(Start(b), SharingRun(now, grant)), 0, Deny)
  {
    SharedStampMisfires(b, now, grant);
    var tail := [Act(1, Answered(Transient))] + [Act(1, Release)] + [Begin(2, now)] + [Act(2, Claim)] +
                [Act(2, Answered(Rotated(grant, true)))] + [Act(0, Answered(InvalidGrant))];
    RunsJoin(UNDISTURBED, Start(b), Overtaking(now), tail);
    SixSteps(Follow(Start(b), Overtaking(now)), Act(1, Answered(Transient)), Act(1, Release), Begin(2, now),
             Act(2, Claim), Act(2, Answered(Rotated(grant, true))), Act(0, Answered(InvalidGrant)));
  }

  /** Over all runs a claim no longer held writes nothing, exactly when no stamp is shared. */
  lemma StaleClaimsNeverWriteExactly(shared: bool)
    ensures StaleClaimsNeverWrite(shared) <==> !shared
  {
    if shared {
      var b, grant := Bundle("a", "r", 600 * SECOND, 300 * SECOND, 0, false), Grant("a", "r", 600);
      SharedStampWrites(b, 300 * SECOND, grant);
      assert SoundBundle(b);
    } else {
      forall b, run, w, a | SoundBundle(b) && OwnStamps(Start(b), run)
        ensures !StaleWrite(Follow(Start(b), run), w, a)
      {
        var s := Follow(Start(b), run);
        if w in s.workers && InFlight(s.workers[w]) && s.holder != Some(w) { StaleClaimsAreInert(b, run, w, a); }
      }
    }
  }
}
