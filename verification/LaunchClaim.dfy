/**
 Launching a spend-capable Yandex Direct campaign: a durable claim, at most two marked
 attempts, and recovery workers that take the claim over under a newer stamp.
 */
module LaunchClaim {

  type WorkerId = nat

  datatype Option<T> = None | Some(value: T)

  datatype LaunchState = Idle | Launching | Reconciling | Failed | Confirmed

  /** The stored campaign, with whether its own connection is still active. */
  datatype Row = Row(state: LaunchState, stamp: Option<int>, attempts: nat, connected: bool)

  // ---------- the store's conditional writes ----------

  predicate InProgress(r: Row) { r.state == Launching || r.state == Reconciling }

  predicate Owned(r: Row, stamp: int) { InProgress(r) && r.stamp == Some(stamp) }

  predicate Claimable(r: Row, manual: bool) {
    r.connected && (r.state == Idle || (manual && r.state == Failed))
  }

  /** A new stamp is always past the one it replaces. */
  function NextStamp(last: Option<int>, now: int): int {
    if last.Some? && now <= last.value then last.value + 1 else now
  }

  /** It is the clock's reading, or the earliest one past the last stamp. */
  lemma NextStampIsEarliest(last: Option<int>, now: int, t: int)
    ensures var stamp := NextStamp(last, now);
            && stamp >= now && (last.Some? ==> stamp > last.value)
            && (t >= now && (last.Some? ==> t > last.value) ==> stamp <= t)
  {
  }

  function Claimed(r: Row, now: int): Row {
    r.(state := Launching, stamp := Some(NextStamp(r.stamp, now)), attempts := 0)
  }

  function TakenOver(r: Row, now: int): Row { r.(stamp := Some(NextStamp(r.stamp, now))) }

  predicate Markable(r: Row, stamp: int) { Owned(r, stamp) && r.attempts < 2 }

  function Marked(r: Row): Row { r.(state := Launching, attempts := r.attempts + 1) }

  function Parked(r: Row): Row { r.(state := Reconciling) }

  function Aborted(r: Row): Row { r.(state := Idle, stamp := None, attempts := 0) }

  function GivenUp(r: Row): Row { r.(state := Failed) }

  function Launched(r: Row): Row { r.(state := Confirmed) }

  /** Provider state ON confirms a launch; a reading without a stamp may confirm only a failed one. */
  predicate Confirms(r: Row, stamp: Option<int>) {
    match stamp
    case Some(t) => r.stamp == Some(t) && (InProgress(r) || r.state == Failed)
    case None => r.state == Failed
  }

  // ---------- the row as an object, one worker at a time ----------

  datatype Reading = Running | Stopped | Unclear

  datatype Fate = Accepted | Rejected | Lost(applied: bool)

  datatype Report = Report(resumed: bool, ok: bool)

  /** The claimed row after an attempt nobody interferes with. */
  function AttemptedRow(r: Row, reading: Reading, fate: Fate): Row {
    match reading
    case Unclear => r.(state := Reconciling)
    case Running => r.(state := Confirmed)
    case Stopped =>
      if r.attempts >= 2 then r
      else
        match fate
        case Rejected => Row(Idle, None, 0, false)
        case Accepted => r.(state := Confirmed, attempts := r.attempts + 1)
        case Lost(_) => r.(state := Reconciling, attempts := r.attempts + 1)
  }

  class CampaignRow {
    var row: Row

    method MarkAttempt(stamp: int) returns (ok: bool)
      modifies this
      ensures ok <==> Markable(old(row), stamp)
      ensures row == if ok then Marked(old(row)) else old(row)
    {
      ok := InProgress(row) && row.attempts < 2 && row.stamp == Some(stamp);
      if ok { row := row.(state := Launching, attempts := row.attempts + 1); }
    }

    method MarkReconciling(stamp: int) returns (ok: bool)
      modifies this
      ensures ok <==> Owned(old(row), stamp)
      ensures row == if ok then Parked(old(row)) else old(row)
    {
      ok := Owned(row, stamp);
      if ok { row := row.(state := Reconciling); }
    }

    method AbortForAuthorization(stamp: int) returns (ok: bool)
      modifies this
      ensures ok <==> Owned(old(row), stamp)
      ensures row == if ok then Aborted(old(row)) else old(row)
    {
      ok := Owned(row, stamp);
      if ok { row := row.(state := Idle, stamp := None, attempts := 0); }
    }

    method Complete(stamp: int) returns (ok: bool)
      modifies this
      ensures ok <==> Owned(old(row), stamp)
      ensures row == if ok then Launched(old(row)) else old(row)
    {
      ok := Owned(row, stamp);
      if ok { row := row.(state := Confirmed); }
    }

    method SyncForLaunch(stamp: int)
      modifies this
      ensures row == if Confirms(old(row), Some(stamp)) then Launched(old(row)) else old(row)
    {
      if row.stamp == Some(stamp) && (InProgress(row) || row.state == Failed) {
        row := row.(state := Confirmed);
      }
    }

    /**
     attemptClaimedDirectLaunch without interference. Resume is sent only with the attempt
     marked, and only a confirmed launch or a rejected credential ends the claim. After a
     rejection the connection is blocked, so that no other launch can be claimed.
     */
    method AttemptClaimedLaunch(stamp: int, reading: Reading, fate: Fate) returns (report: Report)
      requires Owned(row, stamp)
      modifies this
      ensures report.resumed <==> reading == Stopped && old(row).attempts < 2
      ensures report.resumed && row.state != Idle ==> row.attempts == old(row).attempts + 1
      ensures row.state == Idle <==> report.resumed && fate == Rejected
      ensures row.state == Confirmed <==> reading == Running || (report.resumed && fate == Accepted)
      ensures row.state != Idle && row.state != Confirmed ==> Owned(row, stamp)
      ensures report.ok <==> row.state == Confirmed
      ensures row.connected <==> old(row).connected && !(report.resumed && fate == Rejected)
      ensures report.resumed && fate == Rejected ==> forall manual :: !Claimable(row, manual)
      ensures reading == Unclear || (report.resumed && fate.Lost?) ==> row.state == Reconciling
      ensures !report.resumed ==> row.attempts == old(row).attempts
      ensures row.state != Idle ==> row.stamp == Some(stamp)
      ensures reading == Stopped && !report.resumed ==> row == old(row)
      ensures row == AttemptedRow(old(row), reading, fate)
    {
      match reading
      case Unclear =>
        var parked := MarkReconciling(stamp);
        return Report(false, false);
      case Running =>
        SyncForLaunch(stamp);
        return Report(false, true);
      case Stopped =>
        var ok := MarkAttempt(stamp);
        if !ok { return Report(false, false); }
        match fate {
          case Rejected =>
            row := row.(connected := false);
            var aborted := AbortForAuthorization(stamp);
            return Report(true, false);
          case Lost(_) =>
            var parked := MarkReconciling(stamp);
            return Report(true, false);
          case Accepted =>
            var done := Complete(stamp);
            return Report(true, true);
        }
    }
  }

  // ---------- all interleavings ----------

  datatype Phase =
    | Inspecting(stamp: int, attempts: nat)  // a recovery worker that has loaded the campaign
    | Verifying(stamp: int)                  // about to read the provider's graph
    | Marking(stamp: int)
    | Armed(stamp: int)                      // attempt marked, Resume not yet sent
    | Sent(stamp: int)
    | Completing(stamp: int)
    | Parking(stamp: int)
    | Refused(stamp: int)                    // credential rejected, connection to be marked
    | Aborting(stamp: int)
    | GivingUp(stamp: int)
    | SawOn(seen: Option<int>)
    | Finished

  /** `peak` is the last stamp, `base` the first of the present launch and `launch` its
      number; `relaunched` says it took up a failed one; marks, sent and rejected record the
      attempts of all launches. */
  datatype World = World(
    row: Row, peak: int, base: int, launch: nat, relaunched: bool, workers: map<WorkerId, Phase>,
    marks: map<WorkerId, nat>, sent: set<WorkerId>, rejected: set<WorkerId>, on: bool, everOn: bool)

  datatype Action =
    | Read(reading: Reading)
    | Mark
    | Send
    | Answer(fate: Fate)
    | BlockConnection(stored: bool)
    | Abort
    | Complete
    | Park
    | GiveUp
    | Sync
    | Crash

  datatype Event =
    | Launch(worker: WorkerId, now: int, manual: bool)
    | Recover(now: int)
    | Load(worker: WorkerId)
    | Watch(worker: WorkerId)
    | Act(worker: WorkerId, action: Action)
    | TakesEffect(worker: WorkerId)  // a request without an answer is carried out late
    | Operator(on: bool)             // someone switches the campaign at the provider
    | Unauthorized

  /** Up to which attempt an abort may release the claim, whether it may when the launch took
      up a failed one, and whether only with the connection blocked. */
  datatype Policy = Policy(lastAbort: nat, afterFailure: bool, blockedOnly: bool)

  /** As written: neither attempts, nor a failed launch before, nor a failed write of the
      connection's status holds an abort back. */
  const AS_WRITTEN := Policy(2, true, false)

  const START := World(Row(Idle, None, 0, true), 0, 0, 0, false, map[], map[], {}, {}, false, false)

  function At(s: World, w: WorkerId, p: Phase): World { s.(workers := s.workers[w := p]) }

  function Saw(s: World, on: bool): World { s.(on := s.on || on, everOn := s.everOn || on) }

  predicate TrueReading(s: World, reading: Reading) {
    (reading == Running ==> s.on) && (reading == Stopped ==> !s.on)
  }

  predicate MayAbort(p: Policy, r: Row, relaunched: bool, stamp: int) {
    && Owned(r, stamp) && r.attempts <= p.lastAbort
    && (relaunched ==> p.afterFailure) && (p.blockedOnly ==> !r.connected)
  }

  function OnRead(s: World, w: WorkerId, ph: Phase, reading: Reading): World
    requires ph.Inspecting? || ph.Verifying?
  {
    if !TrueReading(s, reading) then s
    else
      match reading
      case Running => At(s, w, SawOn(Some(ph.stamp)))
      case Unclear => At(s, w, Parking(ph.stamp))
      case Stopped =>
        At(s, w, if ph.Verifying? then Marking(ph.stamp)
                 else if ph.attempts >= 2 then GivingUp(ph.stamp) else Verifying(ph.stamp))
  }

  function OnAnswer(s: World, w: WorkerId, stamp: int, fate: Fate): World {
    match fate
    case Accepted => At(Saw(s, true), w, Completing(stamp))
    case Rejected => At(s.(rejected := s.rejected + {w}), w, Refused(stamp))
    case Lost(applied) => At(Saw(s, applied), w, Parking(stamp))
  }

  function Acted(p: Policy, s: World, w: WorkerId, ph: Phase, a: Action): World {
    match a
    case Read(reading) => if ph.Inspecting? || ph.Verifying? then OnRead(s, w, ph, reading) else s
    case Mark =>
      if !ph.Marking? then s
      else if !Markable(s.row, ph.stamp) then At(s, w, Finished)
      else At(s.(row := Marked(s.row), marks := s.marks[w := s.launch]), w, Armed(ph.stamp))
    case Send => if ph.Armed? then At(s.(sent := s.sent + {w}), w, Sent(ph.stamp)) else s
    case Answer(fate) => if ph.Sent? then OnAnswer(s, w, ph.stamp, fate) else s
    case BlockConnection(stored) =>
      if !ph.Refused? then s
      else At(s.(row := s.row.(connected := s.row.connected && !stored)), w, Aborting(ph.stamp))
    case Abort =>
      if !ph.Aborting? then s
      else At(if MayAbort(p, s.row, s.relaunched, ph.stamp) then s.(row := Aborted(s.row)) else s, w, Finished)
    case Complete =>
      if !ph.Completing? then s
      else At(if Owned(s.row, ph.stamp) then s.(row := Launched(s.row)) else s, w, Finished)
    case Park =>
      if !ph.Parking? then s
      else At(if Owned(s.row, ph.stamp) then s.(row := Parked(s.row)) else s, w, Finished)
    case GiveUp =>
      if !ph.GivingUp? then s
      else At(if Owned(s.row, ph.stamp) && s.row.attempts == 2 then s.(row := GivenUp(s.row)) else s, w, Finished)
    case Sync =>
      if !ph.SawOn? then s
      else At(if Confirms(s.row, ph.seen) then s.(row := Launched(s.row)) else s, w, Finished)
    case Crash => At(s, w, Finished)
  }

  function Step(p: Policy, s: World, e: Event): World {
    match e
    case Launch(w, now, manual) =>
      if w in s.workers || !Claimable(s.row, manual) then s
      else
        var stamp := NextStamp(s.row.stamp, now);
        At(s.(row := Claimed(s.row, now), peak := stamp, base := stamp, launch := s.launch + 1,
              relaunched := s.row.state == Failed),
           w, Verifying(stamp))
    case Recover(now) =>
      if !InProgress(s.row) then s
      else s.(row := TakenOver(s.row, now), peak := NextStamp(s.row.stamp, now))
    case Load(w) =>
      if w in s.workers || !InProgress(s.row) || !s.row.connected || s.row.stamp.None? then s
      else At(s, w, Inspecting(s.row.stamp.value, s.row.attempts))
    case Watch(w) => if w in s.workers || !s.on then s else At(s, w, SawOn(None))
    case Act(w, a) => if w in s.workers then Acted(p, s, w, s.workers[w], a) else s
    case TakesEffect(w) => if w in s.sent && w !in s.rejected then Saw(s, true) else s
    case Operator(on) => s.(on := on, everOn := s.everOn || on)
    case Unauthorized => s.(row := s.row.(connected := false))
  }

  function Follow(p: Policy, s: World, run: seq<Event>): World
    decreases |run|
  {
    if run == [] then s else Follow(p, Step(p, s, run[0]), run[1..])
  }

  /** A launch after an abort reads a clock past the stamps already given out. */
  predicate Timely(p: Policy, s: World, run: seq<Event>)
    decreases |run|
  {
    run != [] ==>
      && (run[0].Launch? && s.row.stamp.None? ==> run[0].now > s.peak)
      && Timely(p, Step(p, s, run[0]), run[1..])
  }

  /** The workers whose attempts one launch has marked. */
  ghost function MarkedIn(s: World, launch: nat): set<WorkerId> {
    set w | w in s.marks && s.marks[w] == launch
  }

  /** Attempts of any launch that the provider did not reject: as far as anyone can tell they
      may have taken effect, or may still. */
  ghost function Open(s: World): set<WorkerId> {
    s.marks.Keys - s.rejected
  }

  // ---------- what every interleaving keeps ----------

  predicate Attempted(ph: Phase) {
    ph.Armed? || ph.Sent? || ph.Completing? || ph.Refused? || ph.Aborting?
  }

  ghost predicate PhaseSound(s: World, w: WorkerId, ph: Phase) {
    && (!ph.SawOn? && !ph.Finished? ==> ph.stamp <= s.peak)
    && (Attempted(ph) ==> w in s.marks && (ph.stamp >= s.base ==> s.marks[w] == s.launch))
    && (ph.Marking? || ph.Verifying? || ph.Inspecting? ==> w !in s.marks)
    && (ph.Sent? ==> w in s.sent)
    && (ph.Refused? || ph.Aborting? ==> w in s.rejected)
    && (ph.Completing? || ph.SawOn? ==> s.everOn)
    && (ph.SawOn? && ph.seen.Some? ==> ph.seen.value <= s.peak)
  }

  ghost predicate RowSound(s: World) {
    && s.base <= s.peak
    && (s.row.stamp.Some? ==> s.base <= s.row.stamp.value == s.peak)
    && (s.row.state == Idle <==> s.row.stamp.None?)
    && (s.row.state == Confirmed ==> s.everOn)
    && (s.on ==> s.everOn)
    && (s.row.state == Failed ==> s.row.attempts == 2)
  }

  ghost predicate MarksSound(s: World) {
    && (forall w :: w in s.marks ==> w in s.workers && s.marks[w] <= s.launch)
    && (forall n: nat :: |MarkedIn(s, n)| <= 2)
    && (InProgress(s.row) || s.row.state == Failed ==> |MarkedIn(s, s.launch)| == s.row.attempts)
    && s.sent <= s.marks.Keys && s.rejected <= s.sent
  }

  ghost predicate Sound(s: World) {
    RowSound(s) && MarksSound(s) && (forall w :: w in s.workers ==> PhaseSound(s, w, s.workers[w]))
  }

  lemma SameMarks(s: World, t: World)
    requires t.marks == s.marks
    ensures forall n: nat :: MarkedIn(t, n) == MarkedIn(s, n)
  {
  }

  /** A worker moves on, changing at most the row within the present launch. */
  lemma MovedStaysSound(s: World, t: World, w: WorkerId, ph: Phase)
    requires Sound(s) && t == At(s.(row := t.row), w, ph) && PhaseSound(s, w, ph)
    requires RowSound(t)
    requires InProgress(t.row) || t.row.state == Failed ==>
               (InProgress(s.row) || s.row.state == Failed) && t.row.attempts == s.row.attempts
    ensures Sound(t)
  {
    SameMarks(s, t);
    forall v | v in t.workers ensures PhaseSound(t, v, t.workers[v]) {
      if v != w { assert PhaseSound(s, v, s.workers[v]); }
    }
  }

  lemma MarkCounts(s: World, t: World, w: WorkerId)
    requires w !in s.marks && t.marks == s.marks[w := s.launch]
    ensures MarkedIn(t, s.launch) == MarkedIn(s, s.launch) + {w} && w !in MarkedIn(s, s.launch)
    ensures forall n: nat :: n != s.launch ==> MarkedIn(t, n) == MarkedIn(s, n)
  {
  }

  lemma MarkStaysSound(p: Policy, s: World, w: WorkerId)
    requires Sound(s) && w in s.workers && s.workers[w].Marking? && Markable(s.row, s.workers[w].stamp)
    ensures Sound(Step(p, s, Act(w, Mark)))
  {
    var t := Step(p, s, Act(w, Mark));
    assert PhaseSound(s, w, s.workers[w]);
    MarkCounts(s, t, w);
    assert MarksSound(t);
    forall v | v in t.workers ensures PhaseSound(t, v, t.workers[v]) {
      if v != w { assert PhaseSound(s, v, s.workers[v]); }
    }
  }

  lemma SendStaysSound(p: Policy, s: World, w: WorkerId)
    requires Sound(s) && w in s.workers && s.workers[w].Armed?
    ensures Sound(Step(p, s, Act(w, Send)))
  {
    var t := Step(p, s, Act(w, Send));
    SameMarks(s, t);
    assert PhaseSound(s, w, s.workers[w]);
    forall v | v in t.workers ensures PhaseSound(t, v, t.workers[v]) {
      if v != w { assert PhaseSound(s, v, s.workers[v]); }
    }
  }

  /** A worker learns its answer: the row stays, rejections and provider states add up. */
  lemma LearningStaysSound(s: World, t: World, w: WorkerId)
    requires Sound(s) && w in t.workers && t.workers == s.workers[w := t.workers[w]]
    requires t.row == s.row && t.peak == s.peak && t.base == s.base && t.launch == s.launch
    requires t.marks == s.marks && t.sent == s.sent && s.rejected <= t.rejected <= s.sent
    requires (s.everOn ==> t.everOn) && (t.on ==> t.everOn)
    requires PhaseSound(t, w, t.workers[w])
    ensures Sound(t)
  {
    SameMarks(s, t);
    forall v | v in t.workers ensures PhaseSound(t, v, t.workers[v]) {
      if v != w { assert PhaseSound(s, v, s.workers[v]); }
    }
  }

  lemma AnswerStaysSound(s: World, w: WorkerId, stamp: int, fate: Fate)
    requires Sound(s) && w in s.workers && s.workers[w] == Sent(stamp)
    ensures Sound(OnAnswer(s, w, stamp, fate))
  {
    assert PhaseSound(s, w, s.workers[w]);
    LearningStaysSound(s, OnAnswer(s, w, stamp, fate), w);
  }

  /** The conditional writes that end a worker's part, whether or not they take effect. */
  lemma WriteMoves(p: Policy, s: World, w: WorkerId, a: Action)
    requires w in s.workers && (a.Abort? || a.Complete? || a.Park? || a.GiveUp? || a.Sync?)
    ensures var t := Step(p, s, Act(w, a)); t == s || t == At(s.(row := t.row), w, Finished)
  {
  }

  lemma WriteKeepsRow(p: Policy, s: World, w: WorkerId, a: Action, next: Row)
    requires Sound(s) && w in s.workers && (a.Abort? || a.Complete? || a.Park? || a.GiveUp? || a.Sync?)
    requires next == s.row || Effect(p, s.row, s.relaunched, s.workers[w], a, next)
    ensures RowSound(s.(row := next))
    ensures InProgress(next) || next.state == Failed ==>
              (InProgress(s.row) || s.row.state == Failed) && next.attempts == s.row.attempts
  {
    assert PhaseSound(s, w, s.workers[w]);
  }

  lemma WriteStaysSound(p: Policy, s: World, w: WorkerId, a: Action)
    requires Sound(s) && w in s.workers
    requires a.Abort? || a.Complete? || a.Park? || a.GiveUp? || a.Sync?
    ensures Sound(Step(p, s, Act(w, a)))
  {
    var t := Step(p, s, Act(w, a));
    WriteMoves(p, s, w, a);
    Effects(p, s, w, a);
    WriteKeepsRow(p, s, w, a, t.row);
    if t != s { MovedStaysSound(s, t, w, Finished); }
  }

  lemma ReadStaysSound(p: Policy, s: World, w: WorkerId, reading: Reading)
    requires Sound(s) && w in s.workers
    ensures Sound(Step(p, s, Act(w, Read(reading))))
  {
    var ph, t := s.workers[w], Step(p, s, Act(w, Read(reading)));
    assert PhaseSound(s, w, ph);
    if t != s { MovedStaysSound(s, t, w, t.workers[w]); }
  }

  lemma ActionStaysSound(p: Policy, s: World, w: WorkerId, a: Action)
    requires Sound(s) && w in s.workers
    ensures Sound(Step(p, s, Act(w, a)))
  {
    var ph, t := s.workers[w], Step(p, s, Act(w, a));
    match a
    case Read(reading) => ReadStaysSound(p, s, w, reading);
    case Send => if ph.Armed? { SendStaysSound(p, s, w); }
    case Answer(fate) => if ph.Sent? { AnswerStaysSound(s, w, ph.stamp, fate); }
    case Mark =>
      if ph.Marking? && Markable(s.row, ph.stamp) { MarkStaysSound(p, s, w); }
      else if ph.Marking? { MovedStaysSound(s, t, w, Finished); }
    case BlockConnection(_) =>
      if ph.Refused? {
        assert PhaseSound(s, w, ph);
        MovedStaysSound(s, t, w, Aborting(ph.stamp));
      }
    case Crash => MovedStaysSound(s, t, w, Finished);
    case _ => WriteStaysSound(p, s, w, a);
  }

  lemma LaunchStaysSound(p: Policy, s: World, w: WorkerId, now: int, manual: bool)
    requires Sound(s) && (s.row.stamp.None? ==> now > s.peak)
    ensures Sound(Step(p, s, Launch(w, now, manual)))
  {
    var t := Step(p, s, Launch(w, now, manual));
    if w !in s.workers && Claimable(s.row, manual) {
      SameMarks(s, t);
      assert MarkedIn(t, t.launch) == {};
      forall v | v in t.workers ensures PhaseSound(t, v, t.workers[v]) {
        if v != w { assert PhaseSound(s, v, s.workers[v]); }
      }
    }
  }

  lemma StepStaysSound(p: Policy, s: World, e: Event)
    requires Sound(s) && (e.Launch? && s.row.stamp.None? ==> e.now > s.peak)
    ensures Sound(Step(p, s, e))
  {
    var t := Step(p, s, e);
    match e
    case Launch(w, now, manual) => LaunchStaysSound(p, s, w, now, manual);
    case Act(w, a) => if w in s.workers { ActionStaysSound(p, s, w, a); }
    case Load(w) => if t != s { MovedStaysSound(s, t, w, t.workers[w]); }
    case Watch(w) => if t != s { MovedStaysSound(s, t, w, t.workers[w]); }
    case Recover(now) => OthersStaySound(s, t);
    case TakesEffect(w) => OthersStaySound(s, t);
    case Operator(on) => OthersStaySound(s, t);
    case Unauthorized => OthersStaySound(s, t);
  }

  /** No worker moves: the stamp may grow and the provider's state may change. */
  lemma OthersStaySound(s: World, t: World)
    requires Sound(s) && RowSound(t) && t.workers == s.workers && t.marks == s.marks && t.launch == s.launch
    requires t.sent == s.sent && t.rejected == s.rejected && t.base == s.base && t.peak >= s.peak
    requires s.everOn ==> t.everOn
    requires t.row.state == s.row.state && t.row.attempts == s.row.attempts
    ensures Sound(t)
  {
    SameMarks(s, t);
    forall v | v in t.workers ensures PhaseSound(t, v, t.workers[v]) {
      assert PhaseSound(s, v, s.workers[v]);
    }
  }

  lemma {:induction false} RunStaysSound(p: Policy, s: World, run: seq<Event>)
    requires Sound(s) && Timely(p, s, run)
    ensures Sound(Follow(p, s, run))
    decreases |run|
  {
    if run != [] {
      StepStaysSound(p, s, run[0]);
      RunStaysSound(p, Step(p, s, run[0]), run[1..]);
    }
  }

  lemma FreshStart()
    ensures Sound(START) && Open(START) == {}
  {
    assert forall n: nat :: MarkedIn(START, n) == {};
  }

  /** The count never passes two, so the abort as written is held back by the stamp alone. */
  lemma AbortAsWritten(run: seq<Event>, stamp: int)
    requires Timely(AS_WRITTEN, START, run)
    ensures var s := Follow(AS_WRITTEN, START, run);
            MayAbort(AS_WRITTEN, s.row, s.relaunched, stamp) <==> Owned(s.row, stamp)
  {
    FreshStart();
    RunStaysSound(AS_WRITTEN, START, run);
  }

  /** One launch, however it is taken over, never sends more than two Resume requests, and
      none before its attempt was durably marked. */
  lemma AtMostTwoResumes(p: Policy, run: seq<Event>, launch: nat)
    requires Timely(p, START, run)
    ensures var s := Follow(p, START, run);
            && s.sent <= s.marks.Keys
            && |s.sent * MarkedIn(s, launch)| <= 2
  {
    FreshStart();
    RunStaysSound(p, START, run);
    var s := Follow(p, START, run);
    SubsetSize(s.sent * MarkedIn(s, launch), MarkedIn(s, launch));
  }

  lemma {:induction false} SubsetSize(a: set<WorkerId>, b: set<WorkerId>)
    requires a <= b
    ensures |a| <= |b|
  {
    if a != {} {
      var w :| w in a;
      SubsetSize(a - {w}, b - {w});
    }
  }

  /** What one action of a worker can make of the row. */
  predicate Effect(p: Policy, r: Row, relaunched: bool, ph: Phase, a: Action, next: Row) {
    match a
    case Mark => ph.Marking? && Markable(r, ph.stamp) && next == Marked(r)
    case BlockConnection(_) => next == r.(connected := next.connected) && (next.connected ==> r.connected)
    case Abort => ph.Aborting? && MayAbort(p, r, relaunched, ph.stamp) && next == Aborted(r)
    case Complete => ph.Completing? && Owned(r, ph.stamp) && next == Launched(r)
    case Park => ph.Parking? && Owned(r, ph.stamp) && next == Parked(r)
    case GiveUp => ph.GivingUp? && Owned(r, ph.stamp) && r.attempts == 2 && next == GivenUp(r)
    case Sync => ph.SawOn? && Confirms(r, ph.seen) && next == Launched(r)
    case _ => false
  }

  lemma Effects(p: Policy, s: World, w: WorkerId, a: Action)
    requires w in s.workers
    ensures var r := Step(p, s, Act(w, a)).row; r == s.row || Effect(p, s.row, s.relaunched, s.workers[w], a, r)
  {
  }

  lemma EffectEndsClaim(p: Policy, s: World, w: WorkerId, a: Action, next: Row)
    requires Sound(s) && w in s.workers && InProgress(s.row) && !InProgress(next)
    requires Effect(p, s.row, s.relaunched, s.workers[w], a, next)
    ensures next.state == Idle ==> a == Abort && w in s.rejected && w in MarkedIn(s, s.launch)
    ensures next.state == Confirmed ==> s.everOn
    ensures next.state == Failed ==> |MarkedIn(s, s.launch)| == 2
  {
    assert PhaseSound(s, w, s.workers[w]);
  }

  /** A claim in progress ends only with a launch that took place, a rejection of one of its own
      attempts by the provider, or two attempts after which the provider was found stopped. */
  lemma HeldUntilResolved(p: Policy, s: World, e: Event)
    requires Sound(s) && InProgress(s.row) && !InProgress(Step(p, s, e).row)
    ensures e.Act? && e.worker in s.workers
    ensures Step(p, s, e).row.state == Idle ==>
              e.action == Abort && e.worker in s.rejected && e.worker in MarkedIn(s, s.launch)
    ensures Step(p, s, e).row.state == Confirmed ==> s.everOn
    ensures Step(p, s, e).row.state == Failed ==> |MarkedIn(s, s.launch)| == 2
  {
    if e.Act? {
      Effects(p, s, e.worker, e.action);
      EffectEndsClaim(p, s, e.worker, e.action, Step(p, s, e).row);
    }
  }

  predicate Over(r: Row) { r.state == Failed || r.state == Confirmed }

  lemma EffectOnOver(p: Policy, s: World, w: WorkerId, a: Action, next: Row)
    requires Over(s.row) && w in s.workers && Effect(p, s.row, s.relaunched, s.workers[w], a, next)
    ensures Over(next)
  {
  }

  lemma StepStaysOver(p: Policy, s: World, e: Event)
    requires Over(s.row) && !(e.Launch? && e.manual)
    ensures Over(Step(p, s, e).row)
  {
    if e.Act? && e.worker in s.workers {
      Effects(p, s, e.worker, e.action);
      if Step(p, s, e).row != s.row { EffectOnOver(p, s, e.worker, e.action, Step(p, s, e).row); }
    }
  }

  /** A failed launch is never taken up again by itself: without a manual launch it stays failed,
      or it turns out to have taken place. */
  lemma {:induction false} FailedWaitsForItsOwner(p: Policy, s: World, run: seq<Event>)
    requires Sound(s) && Timely(p, s, run) && Over(s.row)
    requires forall i :: 0 <= i < |run| ==> !(run[i].Launch? && run[i].manual)
    ensures var t := Follow(p, s, run);
            t.row.state == Failed || (t.row.state == Confirmed && t.everOn)
    decreases |run|
  {
    if run != [] {
      StepStaysOver(p, s, run[0]);
      StepStaysSound(p, s, run[0]);
      FailedWaitsForItsOwner(p, Step(p, s, run[0]), run[1..]);
    }
  }

  /** No step of the launch protocol connects a blocked connection again. */
  lemma StepStaysBlocked(p: Policy, s: World, e: Event)
    requires !s.row.connected
    ensures var t := Step(p, s, e); !t.row.connected && t.launch == s.launch
  {
    if e.Act? && e.worker in s.workers {
      Effects(p, s, e.worker, e.action);
      WorkersOnlyMark(p, s, e.worker, e.action);
    }
  }

  /** With its connection blocked a campaign is never launched again, manually or not. */
  lemma {:induction false} BlockedNeverLaunches(p: Policy, s: World, run: seq<Event>)
    requires !s.row.connected
    ensures !Follow(p, s, run).row.connected && Follow(p, s, run).launch == s.launch
    decreases |run|
  {
    if run != [] {
      StepStaysBlocked(p, s, run[0]);
      BlockedNeverLaunches(p, Step(p, s, run[0]), run[1..]);
    }
  }

  predicate Rests(run: seq<Event>, w: WorkerId) {
    forall i :: 0 <= i < |run| ==> !(run[i].Act? && run[i].worker == w)
  }

  lemma {:induction false} RestingWorkerStays(p: Policy, s: World, run: seq<Event>, w: WorkerId)
    requires w in s.workers && Rests(run, w)
    ensures w in Follow(p, s, run).workers && Follow(p, s, run).workers[w] == s.workers[w]
    decreases |run|
  {
    if run != [] {
      var e := run[0];
      if e.Act? && e.worker in s.workers { WorkerMovesAlone(p, s, e.worker, e.action); }
      assert w in Step(p, s, e).workers && Step(p, s, e).workers[w] == s.workers[w];
      RestingWorkerStays(p, Step(p, s, e), run[1..], w);
    }
  }

  /** Workers that came after the connection was blocked only watch. */
  ghost predicate NewcomersWatch(s: World, t: World) {
    && t.sent <= s.sent + s.workers.Keys
    && (forall w :: w in t.workers && w !in s.workers ==> t.workers[w].SawOn? || t.workers[w].Finished?)
  }

  lemma SendsForItself(p: Policy, t: World, w: WorkerId, a: Action)
    requires w in t.workers
    ensures Step(p, t, Act(w, a)).sent <= t.sent + {w}
  {
    match a
    case Read(_) =>
    case Mark =>
    case Send =>
    case Answer(_) =>
    case BlockConnection(_) =>
    case Abort =>
    case Complete =>
    case Park =>
    case GiveUp =>
    case Sync =>
    case Crash =>
  }

  lemma WatcherOnlyWatches(p: Policy, t: World, w: WorkerId, a: Action)
    requires w in t.workers && (t.workers[w].SawOn? || t.workers[w].Finished?)
    ensures var u := Step(p, t, Act(w, a));
            u.sent == t.sent && (u.workers[w].SawOn? || u.workers[w].Finished?)
  {
  }

  lemma StepKeepsNewcomersOut(p: Policy, s: World, t: World, e: Event)
    requires !t.row.connected && NewcomersWatch(s, t)
    ensures NewcomersWatch(s, Step(p, t, e))
  {
    if e.Act? && e.worker in t.workers {
      WorkerMovesAlone(p, t, e.worker, e.action);
      SendsForItself(p, t, e.worker, e.action);
      if e.worker !in s.workers { WatcherOnlyWatches(p, t, e.worker, e.action); }
    }
  }

  /** With its connection blocked no Resume is sent but by workers already under way. */
  lemma {:induction false} BlockedSendsNothingNew(p: Policy, s: World, t: World, run: seq<Event>)
    requires !t.row.connected && NewcomersWatch(s, t)
    ensures NewcomersWatch(s, Follow(p, t, run))
    decreases |run|
  {
    if run != [] {
      StepStaysBlocked(p, t, run[0]);
      StepKeepsNewcomersOut(p, s, t, run[0]);
      BlockedSendsNothingNew(p, s, Step(p, t, run[0]), run[1..]);
    }
  }

  lemma SwitchedOnByAnswer(p: Policy, s: World, w: WorkerId, a: Action)
    requires w in s.workers && !s.on
    ensures Step(p, s, Act(w, a)).on <==>
              s.workers[w].Sent? && (a == Answer(Accepted) || a == Answer(Lost(true)))
  {
    match a
    case Read(_) =>
    case Mark =>
    case Send =>
    case Answer(_) =>
    case BlockConnection(_) =>
    case Abort =>
    case Complete =>
    case Park =>
    case GiveUp =>
    case Sync =>
    case Crash =>
  }

  /** The provider's campaign is switched on exactly by a person, or by a request that was sent and
      not rejected: as it is answered, or later. */
  lemma SwitchedOnExactly(p: Policy, s: World, e: Event)
    requires !s.on
    ensures Step(p, s, e).on <==>
              || e == Operator(true)
              || (e.TakesEffect? && e.worker in s.sent && e.worker !in s.rejected)
              || (&& e.Act? && e.worker in s.workers && s.workers[e.worker].Sent?
                  && (e.action == Answer(Accepted) || e.action == Answer(Lost(true))))
  {
    if e.Act? && e.worker in s.workers { SwitchedOnByAnswer(p, s, e.worker, e.action); }
  }

  /** After a rejected Resume whose connection could be marked, none is ever launched: not before
      the claim is released, and not after. */
  lemma RejectedResumeBlocks(p: Policy, s: World, w: WorkerId, between: seq<Event>, run: seq<Event>)
    requires w in s.workers && s.workers[w].Sent? && Rests(between, w)
    ensures var rejected := Follow(p, Step(p, s, Act(w, Answer(Rejected))), between);
            var blocked := Step(p, rejected, Act(w, BlockConnection(true)));
            !Follow(p, blocked, run).row.connected && Follow(p, blocked, run).launch == rejected.launch
  {
    var answered := Step(p, s, Act(w, Answer(Rejected)));
    RestingWorkerStays(p, answered, between, w);
    var rejected := Follow(p, answered, between);
    WorkersOnlyMark(p, rejected, w, BlockConnection(true));
    BlockedNeverLaunches(p, Step(p, rejected, Act(w, BlockConnection(true))), run);
  }

  /** A worker that has a stamp, but not the row's: the row's is newer, or yet to be given. */
  ghost predicate Outdated(s: World, w: WorkerId) {
    w in s.workers &&
    match s.workers[w]
    case SawOn(None) => false
    case SawOn(Some(t)) => t <= s.peak && s.row.stamp != Some(t)
    case Finished => true
    case ph => ph.stamp <= s.peak && s.row.stamp != Some(ph.stamp)
  }

  lemma EffectIsFenced(p: Policy, s: World, w: WorkerId, a: Action, next: Row)
    requires Sound(s) && Outdated(s, w) && Effect(p, s.row, s.relaunched, s.workers[w], a, next)
    ensures next == s.row.(connected := next.connected)
  {
  }

  function StampOf(ph: Phase): Option<int> {
    match ph
    case SawOn(seen) => seen
    case Finished => None
    case _ => Some(ph.stamp)
  }

  /** A reading moves the worker only. */
  lemma ReadMovesWorker(s: World, w: WorkerId, reading: Reading)
    requires w in s.workers && (s.workers[w].Inspecting? || s.workers[w].Verifying?)
    ensures var t := OnRead(s, w, s.workers[w], reading);
            w in t.workers && t == s.(workers := s.workers[w := t.workers[w]])
  {
    assert s.workers == s.workers[w := s.workers[w]];
  }

  /** An answer moves the worker, and records what became of the request. */
  lemma AnswerMovesWorker(s: World, w: WorkerId, stamp: int, fate: Fate)
    requires w in s.workers
    ensures var t := OnAnswer(s, w, stamp, fate);
            && w in t.workers && s.rejected <= t.rejected
            && t == s.(workers := s.workers[w := t.workers[w]], rejected := t.rejected, on := t.on, everOn := t.everOn)
  {
  }

  lemma WorkerMovesAlone(p: Policy, s: World, w: WorkerId, a: Action)
    requires w in s.workers
    ensures var t := Step(p, s, Act(w, a)); t.peak == s.peak && t.workers == s.workers[w := t.workers[w]]
  {
    var ph := s.workers[w];
    assert s.workers == s.workers[w := ph];
    match a
    case Read(reading) => if ph.Inspecting? || ph.Verifying? { ReadMovesWorker(s, w, reading); }
    case Answer(fate) => if ph.Sent? { AnswerMovesWorker(s, w, ph.stamp, fate); }
    case Mark =>
    case Send =>
    case BlockConnection(_) =>
    case Abort =>
    case Complete =>
    case Park =>
    case GiveUp =>
    case Sync =>
    case Crash =>
  }

  /** A worker's stamp stays the one it came with. */
  lemma WorkerKeepsStamp(p: Policy, s: World, w: WorkerId, a: Action)
    requires w in s.workers
    ensures var ph := Step(p, s, Act(w, a)).workers[w];
            ph == Finished || (s.workers[w] != Finished && StampOf(ph) == StampOf(s.workers[w]))
  {
    match a
    case Read(_) =>
    case Mark =>
    case Send =>
    case Answer(_) =>
    case BlockConnection(_) =>
    case Abort =>
    case Complete =>
    case Park =>
    case GiveUp =>
    case Sync =>
    case Crash =>
  }

  /** No action of a worker gives the row a stamp. */
  lemma WorkersGiveNoStamp(p: Policy, s: World, w: WorkerId, a: Action)
    requires w in s.workers
    ensures Step(p, s, Act(w, a)).row.stamp == s.row.stamp || Step(p, s, Act(w, a)).row.stamp == None
  {
    Effects(p, s, w, a);
  }

  /** Launches and takeovers give the row a stamp past every earlier one. */
  lemma NewStampsAreNewer(p: Policy, s: World, e: Event)
    requires !e.Act? && RowSound(s) && (e.Launch? && s.row.stamp.None? ==> e.now > s.peak)
    ensures var t := Step(p, s, e);
            && t.peak >= s.peak
            && (t.row.stamp == s.row.stamp || (t.row.stamp.Some? && t.row.stamp.value > s.peak))
            && forall w :: w in s.workers ==> w in t.workers && t.workers[w] == s.workers[w]
  {
  }

  lemma OutdatedPersists(s: World, t: World, w: WorkerId)
    requires Outdated(s, w) && w in t.workers && t.peak >= s.peak
    requires t.workers[w] == Finished || StampOf(t.workers[w]) == StampOf(s.workers[w])
    requires t.row.stamp == s.row.stamp || t.row.stamp == None || t.row.stamp.value > s.peak
    requires s.workers[w] == Finished ==> t.workers[w] == Finished
    ensures Outdated(t, w)
  {
  }

  lemma StepStaysOutdated(p: Policy, s: World, e: Event, w: WorkerId)
    requires RowSound(s) && Outdated(s, w) && (e.Launch? && s.row.stamp.None? ==> e.now > s.peak)
    ensures Outdated(Step(p, s, e), w)
  {
    if e.Act? {
      if e.worker in s.workers {
        WorkerMovesAlone(p, s, e.worker, e.action);
        WorkerKeepsStamp(p, s, e.worker, e.action);
        WorkersGiveNoStamp(p, s, e.worker, e.action);
      }
    } else {
      NewStampsAreNewer(p, s, e);
    }
    OutdatedPersists(s, Step(p, s, e), w);
  }

  lemma {:induction false} OutdatedStaysFenced(p: Policy, s: World, run: seq<Event>, w: WorkerId, a: Action)
    requires Sound(s) && Timely(p, s, run) && Outdated(s, w)
    ensures var t := Follow(p, s, run);
            var next := Step(p, t, Act(w, a)).row;
            Outdated(t, w) && next == t.row.(connected := next.connected)
    decreases |run|
  {
    if run == [] {
      Effects(p, s, w, a);
      if Step(p, s, Act(w, a)).row != s.row { EffectIsFenced(p, s, w, a, Step(p, s, Act(w, a)).row); }
    } else {
      StepStaysSound(p, s, run[0]);
      StepStaysOutdated(p, s, run[0], w);
      OutdatedStaysFenced(p, Step(p, s, run[0]), run[1..], w, a);
    }
  }

  /** After a takeover no earlier worker of the launch ever changes the claim again: not now,
      not after further takeovers, and not in a later launch. */
  lemma TakeoverFences(p: Policy, s: World, now: int, run: seq<Event>, w: WorkerId, a: Action)
    requires Sound(s) && InProgress(s.row) && w in s.workers && s.workers[w] != SawOn(None)
    requires Timely(p, Step(p, s, Recover(now)), run)
    ensures var t := Follow(p, Step(p, s, Recover(now)), run);
            var next := Step(p, t, Act(w, a)).row;
            next == t.row.(connected := next.connected)
  {
    var taken := Step(p, s, Recover(now));
    StepStaysSound(p, s, Recover(now));
    assert PhaseSound(s, w, s.workers[w]);
    assert Outdated(taken, w);
    OutdatedStaysFenced(p, taken, run, w, a);
  }

  // ---------- launches that start blindly ----------

  /** A launch from idle although an attempt of an earlier launch may have taken effect. */
  ghost predicate Blind(s: World, e: Event) {
    e.Launch? && e.worker !in s.workers && Claimable(s.row, e.manual) && s.row.state == Idle && Open(s) != {}
  }

  ghost predicate NoBlindLaunch(p: Policy, s: World, run: seq<Event>)
    decreases |run|
  {
    run != [] ==> !Blind(s, run[0]) && NoBlindLaunch(p, Step(p, s, run[0]), run[1..])
  }

  /** Aborts confined to a first attempt that follows no failed launch, or ruled out. */
  predicate Confined(p: Policy) { p.lastAbort == 0 || (p.lastAbort == 1 && !p.afterFailure) }

  /** Open attempts belong to the present launch, unless it took up a failed one. */
  ghost predicate OpenIsPresent(s: World) {
    s.row.state != Idle && !s.relaunched ==> Open(s) <= MarkedIn(s, s.launch)
  }

  /** Released claims leave no attempt open, and those that may are not followed by a launch. */
  ghost predicate Released(p: Policy, s: World) {
    && (Confined(p) ==> OpenIsPresent(s) && (s.row.state == Idle ==> Open(s) == {}))
    && (p.blockedOnly && s.row.state == Idle && s.launch > 0 ==> !s.row.connected)
    && (s.launch == 0 ==> s.row.state == Idle && s.marks == map[])
  }

  lemma AbortFindsItsAttempt(s: World, w: WorkerId)
    requires Sound(s) && w in s.workers && s.workers[w].Aborting? && Owned(s.row, s.workers[w].stamp)
    ensures w in MarkedIn(s, s.launch) && w in s.rejected && s.row.attempts >= 1
    ensures s.row.attempts <= 1 ==> MarkedIn(s, s.launch) == {w}
  {
    assert PhaseSound(s, w, s.workers[w]);
    SubsetSize({w}, MarkedIn(s, s.launch));
    forall v | v in MarkedIn(s, s.launch) && s.row.attempts <= 1 ensures v == w {
      if v != w { SubsetSize({v, w}, MarkedIn(s, s.launch)); }
    }
  }

  lemma AbortResolves(s: World, w: WorkerId)
    requires Sound(s) && w in s.workers && s.workers[w].Aborting? && Owned(s.row, s.workers[w].stamp)
    requires s.row.attempts <= 1 && !s.relaunched && OpenIsPresent(s)
    ensures Open(s) == {}
  {
    AbortFindsItsAttempt(s, w);
  }

  lemma AbortStaysReleased(p: Policy, s: World, w: WorkerId)
    requires Sound(s) && Released(p, s) && w in s.workers && s.workers[w].Aborting?
    requires MayAbort(p, s.row, s.relaunched, s.workers[w].stamp)
    ensures Released(p, Step(p, s, Act(w, Abort)))
  {
    var t := Step(p, s, Act(w, Abort));
    assert t == At(s.(row := Aborted(s.row)), w, Finished);
    AbortFindsItsAttempt(s, w);
    if Confined(p) { AbortResolves(s, w); }
    assert Open(t) == Open(s);
  }

  lemma WorkersOnlyMark(p: Policy, s: World, w: WorkerId, a: Action)
    requires w in s.workers
    ensures var t := Step(p, s, Act(w, a));
            && t.launch == s.launch && t.relaunched == s.relaunched && s.rejected <= t.rejected
            && (t.marks == s.marks || (t.marks == s.marks[w := s.launch] && InProgress(s.row)))
  {
    var ph := s.workers[w];
    match a
    case Read(reading) => if ph.Inspecting? || ph.Verifying? { ReadMovesWorker(s, w, reading); }
    case Answer(fate) => if ph.Sent? { AnswerMovesWorker(s, w, ph.stamp, fate); }
    case Mark =>
    case Send =>
    case BlockConnection(_) =>
    case Abort =>
    case Complete =>
    case Park =>
    case GiveUp =>
    case Sync =>
    case Crash =>
  }

  lemma IdleWorkersChangeLittle(p: Policy, s: World, w: WorkerId, a: Action)
    requires w in s.workers && s.row.state == Idle
    ensures var t := Step(p, s, Act(w, a));
            && t.marks == s.marks && t.launch == s.launch && s.rejected <= t.rejected
            && t.row == s.row.(connected := t.row.connected) && (t.row.connected ==> s.row.connected)
  {
    WorkersOnlyMark(p, s, w, a);
    Effects(p, s, w, a);
  }

  lemma PresentPersists(s: World, t: World, w: WorkerId)
    requires s.row.state != Idle && OpenIsPresent(s)
    requires t.launch == s.launch && t.relaunched == s.relaunched && s.rejected <= t.rejected
    requires t.marks == s.marks || t.marks == s.marks[w := s.launch]
    ensures OpenIsPresent(t)
  {
    forall v | v in Open(t) && Open(s) <= MarkedIn(s, s.launch) ensures v in MarkedIn(t, t.launch) {
      if v in s.marks { assert v in Open(s); }
    }
  }

  lemma LaunchKeepsPresent(p: Policy, s: World, e: Event)
    requires !e.Act? && OpenIsPresent(s) && (e.Launch? && s.row.state == Idle ==> Open(s) == {})
    ensures OpenIsPresent(Step(p, s, e)) && Open(Step(p, s, e)) == Open(s)
  {
  }

  lemma ActionStaysReleased(p: Policy, s: World, w: WorkerId, a: Action)
    requires Sound(s) && Released(p, s) && w in s.workers
    ensures Released(p, Step(p, s, Act(w, a)))
  {
    var t := Step(p, s, Act(w, a));
    Effects(p, s, w, a);
    WorkersOnlyMark(p, s, w, a);
    if s.row.state == Idle {
      IdleWorkersChangeLittle(p, s, w, a);
      assert Open(t) <= Open(s);
    } else if t.row.state == Idle {
      AbortStaysReleased(p, s, w);
    } else if Confined(p) {
      PresentPersists(s, t, w);
    }
  }

  lemma StepStaysReleased(p: Policy, s: World, e: Event)
    requires Sound(s) && Released(p, s)
    ensures Released(p, Step(p, s, e))
  {
    if e.Act? {
      if e.worker in s.workers { ActionStaysReleased(p, s, e.worker, e.action); }
    } else if Confined(p) {
      LaunchKeepsPresent(p, s, e);
    }
  }

  lemma {:induction false} GuardedRunsStayReleased(p: Policy, s: World, run: seq<Event>)
    requires Sound(s) && Released(p, s) && Timely(p, s, run)
    ensures Released(p, Follow(p, s, run))
    decreases |run|
  {
    if run != [] {
      StepStaysSound(p, s, run[0]);
      StepStaysReleased(p, s, run[0]);
      GuardedRunsStayReleased(p, Step(p, s, run[0]), run[1..]);
    }
  }

  lemma {:induction false} GuardedRunsNeverBlind(p: Policy, s: World, run: seq<Event>)
    requires Sound(s) && Released(p, s) && Timely(p, s, run)
    requires Confined(p) || p.blockedOnly
    ensures NoBlindLaunch(p, s, run)
    decreases |run|
  {
    if run != [] {
      if s.launch == 0 { assert Open(s) == {}; }
      StepStaysSound(p, s, run[0]);
      StepStaysReleased(p, s, run[0]);
      GuardedRunsNeverBlind(p, Step(p, s, run[0]), run[1..]);
    }
  }

  // ---------- the code as written ----------

  /** An abort finds its attempt to be the only one of a launch that took up no failed one, or
      the connection already blocked. */
  predicate Guarded(s: World, e: Event) {
    e.Act? && e.worker in s.workers && e.action.Abort? && s.workers[e.worker].Aborting?
    && Owned(s.row, s.workers[e.worker].stamp) ==>
      (s.row.attempts <= 1 && !s.relaunched) || !s.row.connected
  }

  predicate GuardedRun(s: World, run: seq<Event>)
    decreases |run|
  {
    run != [] ==> Guarded(s, run[0]) && GuardedRun(Step(AS_WRITTEN, s, run[0]), run[1..])
  }

  ghost predicate Covered(s: World) {
    OpenIsPresent(s) && (s.row.state == Idle ==> Open(s) == {} || !s.row.connected)
  }

  lemma AbortStaysCovered(s: World, w: WorkerId)
    requires Sound(s) && Covered(s) && w in s.workers && s.workers[w].Aborting?
    requires Owned(s.row, s.workers[w].stamp) && ((s.row.attempts <= 1 && !s.relaunched) || !s.row.connected)
    ensures Covered(Step(AS_WRITTEN, s, Act(w, Abort)))
  {
    var t := Step(AS_WRITTEN, s, Act(w, Abort));
    assert Open(t) == Open(s) && t.marks == s.marks && t.launch == s.launch && t.relaunched == s.relaunched;
    if s.row.attempts <= 1 && !s.relaunched { AbortResolves(s, w); }
    SameMarks(s, t);
  }

  lemma ActionStaysCovered(s: World, w: WorkerId, a: Action)
    requires Sound(s) && Covered(s) && w in s.workers && Guarded(s, Act(w, a))
    ensures Covered(Step(AS_WRITTEN, s, Act(w, a)))
  {
    var t := Step(AS_WRITTEN, s, Act(w, a));
    if s.row.state == Idle {
      IdleWorkersChangeLittle(AS_WRITTEN, s, w, a);
      assert Open(t) <= Open(s);
    } else if t.row.state == Idle {
      Effects(AS_WRITTEN, s, w, a);
      AbortStaysCovered(s, w);
    } else {
      WorkersOnlyMark(AS_WRITTEN, s, w, a);
      PresentPersists(s, t, w);
    }
  }

  lemma StepStaysCovered(s: World, e: Event)
    requires Sound(s) && Covered(s) && Guarded(s, e)
    ensures Covered(Step(AS_WRITTEN, s, e))
  {
    if e.Act? {
      if e.worker in s.workers { ActionStaysCovered(s, e.worker, e.action); }
    } else if e.Launch? && s.row.state == Idle && Open(s) != {} {
      assert Step(AS_WRITTEN, s, e) == s;
    } else {
      LaunchKeepsPresent(AS_WRITTEN, s, e);
    }
  }

  /** The code as written starts no launch blindly in any run whose aborts are guarded that way. */
  lemma {:induction false} GuardedCodeNeverBlind(s: World, run: seq<Event>)
    requires Sound(s) && Covered(s) && Timely(AS_WRITTEN, s, run) && GuardedRun(s, run)
    ensures NoBlindLaunch(AS_WRITTEN, s, run)
    decreases |run|
  {
    if run != [] {
      StepStaysSound(AS_WRITTEN, s, run[0]);
      StepStaysCovered(s, run[0]);
      GuardedCodeNeverBlind(Step(AS_WRITTEN, s, run[0]), run[1..]);
    }
  }

  lemma {:induction false} RunsJoin(p: Policy, s: World, a: seq<Event>, b: seq<Event>)
    ensures Follow(p, s, a + b) == Follow(p, Follow(p, s, a), b)
    ensures Timely(p, s, a + b) <==> Timely(p, s, a) && Timely(p, Follow(p, s, a), b)
    ensures NoBlindLaunch(p, s, a + b) <==> NoBlindLaunch(p, s, a) && NoBlindLaunch(p, Follow(p, s, a), b)
    decreases |a|
  {
    if a == [] {
      assert a + b == b;
    } else {
      assert (a + b)[1..] == a[1..] + b;
      RunsJoin(p, Step(p, s, a[0]), a[1..], b);
    }
  }

  lemma OneStep(p: Policy, s: World, e: Event)
    requires e.Launch? && s.row.stamp.None? ==> e.now > s.peak
    ensures Follow(p, s, [e]) == Step(p, s, e) && Timely(p, s, [e])
    ensures NoBlindLaunch(p, s, [e]) <==> !Blind(s, e)
  {
    assert [e][1..] == [];
    assert Timely(p, Step(p, s, e), []) && NoBlindLaunch(p, Step(p, s, e), []);
  }

  /** A timely run from one world to another. */
  ghost predicate Reaches(p: Policy, s: World, run: seq<Event>, t: World) {
    Timely(p, s, run) && Follow(p, s, run) == t
  }

  lemma Chain(p: Policy, s: World, a: seq<Event>, t: World, b: seq<Event>, u: World)
    requires Reaches(p, s, a, t) && Reaches(p, t, b, u)
    ensures Reaches(p, s, a + b, u)
  {
    RunsJoin(p, s, a, b);
  }

  lemma One(p: Policy, s: World, e: Event, t: World)
    requires Step(p, s, e) == t && (e.Launch? && s.row.stamp.None? ==> e.now > s.peak)
    ensures Reaches(p, s, [e], t)
  {
    OneStep(p, s, e);
  }

  // ---------- legs of the runs that leave attempts open ----------

  /** A worker marks an attempt and sends it. */
  function Attempt(w: WorkerId): seq<Event> {
    [Act(w, Read(Stopped))] + ([Act(w, Mark)] + [Act(w, Send)])
  }

  function MarkedBy(s: World, w: WorkerId, ph: Phase): World {
    s.(row := Marked(s.row), marks := s.marks[w := s.launch], workers := s.workers[w := ph])
  }

  function Tried(s: World, w: WorkerId, stamp: int): World {
    MarkedBy(s, w, Sent(stamp)).(sent := s.sent + {w})
  }

  lemma MarkReaches(p: Policy, s: World, w: WorkerId, stamp: int)
    requires w in s.workers && s.workers[w] == Verifying(stamp) && Markable(s.row, stamp) && !s.on
    ensures Reaches(p, s, [Act(w, Read(Stopped))], At(s, w, Marking(stamp)))
    ensures Reaches(p, At(s, w, Marking(stamp)), [Act(w, Mark)], MarkedBy(s, w, Armed(stamp)))
  {
    One(p, s, Act(w, Read(Stopped)), At(s, w, Marking(stamp)));
    assert s.workers[w := Marking(stamp)][w := Armed(stamp)] == s.workers[w := Armed(stamp)];
    One(p, At(s, w, Marking(stamp)), Act(w, Mark), MarkedBy(s, w, Armed(stamp)));
  }

  lemma SendReaches(p: Policy, s: World, w: WorkerId, stamp: int)
    ensures Reaches(p, MarkedBy(s, w, Armed(stamp)), [Act(w, Send)], Tried(s, w, stamp))
  {
    assert s.workers[w := Armed(stamp)][w := Sent(stamp)] == s.workers[w := Sent(stamp)];
    One(p, MarkedBy(s, w, Armed(stamp)), Act(w, Send), Tried(s, w, stamp));
  }

  lemma AttemptReaches(p: Policy, s: World, w: WorkerId, stamp: int)
    requires w in s.workers && s.workers[w] == Verifying(stamp) && Markable(s.row, stamp) && !s.on
    ensures Reaches(p, s, Attempt(w), Tried(s, w, stamp))
  {
    MarkReaches(p, s, w, stamp);
    SendReaches(p, s, w, stamp);
    var marking, t := At(s, w, Marking(stamp)), Tried(s, w, stamp);
    Chain(p, marking, [Act(w, Mark)], MarkedBy(s, w, Armed(stamp)), [Act(w, Send)], t);
    Chain(p, s, [Act(w, Read(Stopped))], marking, [Act(w, Mark)] + [Act(w, Send)], t);
  }

  /** Its answer is lost. */
  function Loss(w: WorkerId): seq<Event> { [Act(w, Answer(Lost(false)))] + [Act(w, Park)] }

  function ParkedBy(s: World, w: WorkerId): World { At(s.(row := Parked(s.row)), w, Finished) }

  lemma LossReaches(p: Policy, s: World, w: WorkerId, stamp: int)
    requires w in s.workers && s.workers[w] == Sent(stamp) && Owned(s.row, stamp)
    ensures Reaches(p, s, Loss(w), ParkedBy(s, w))
  {
    var parking := At(s, w, Parking(stamp));
    One(p, s, Act(w, Answer(Lost(false))), parking);
    assert s.workers[w := Parking(stamp)][w := Finished] == s.workers[w := Finished];
    One(p, parking, Act(w, Park), ParkedBy(s, w));
    Chain(p, s, [Act(w, Answer(Lost(false)))], parking, [Act(w, Park)], ParkedBy(s, w));
  }

  /** It is rejected, and the claim is released. */
  function Rejection(w: WorkerId, stored: bool): seq<Event> {
    [Act(w, Answer(Rejected))] + ([Act(w, BlockConnection(stored))] + [Act(w, Abort)])
  }

  function ReleasedBy(s: World, w: WorkerId, stored: bool): World {
    At(s.(row := Row(Idle, None, 0, !stored), rejected := s.rejected + {w}), w, Finished)
  }

  lemma RejectionReaches(p: Policy, s: World, w: WorkerId, stamp: int, stored: bool)
    requires w in s.workers && s.workers[w] == Sent(stamp)
    requires s.row == Row(Launching, Some(stamp), s.row.attempts, true) && s.row.attempts <= p.lastAbort
    requires (s.relaunched ==> p.afterFailure) && (p.blockedOnly ==> stored)
    ensures Reaches(p, s, Rejection(w, stored), ReleasedBy(s, w, stored))
  {
    var refused := At(s.(rejected := s.rejected + {w}), w, Refused(stamp));
    var aborting := At(s.(rejected := s.rejected + {w}, row := s.row.(connected := !stored)), w, Aborting(stamp));
    One(p, s, Act(w, Answer(Rejected)), refused);
    assert s.workers[w := Refused(stamp)][w := Aborting(stamp)] == s.workers[w := Aborting(stamp)];
    One(p, refused, Act(w, BlockConnection(stored)), aborting);
    assert s.workers[w := Aborting(stamp)][w := Finished] == s.workers[w := Finished];
    One(p, aborting, Act(w, Abort), ReleasedBy(s, w, stored));
    Chain(p, refused, [Act(w, BlockConnection(stored))], aborting, [Act(w, Abort)], ReleasedBy(s, w, stored));
    Chain(p, s, [Act(w, Answer(Rejected))], refused, [Act(w, BlockConnection(stored))] + [Act(w, Abort)],
          ReleasedBy(s, w, stored));
  }

  /** A recovery worker takes the launch over and finds the campaign stopped. */
  function Takeover(w: WorkerId, now: int): seq<Event> { [Recover(now)] + ([Load(w)] + [Act(w, Read(Stopped))]) }

  function TakenBy(s: World, w: WorkerId, now: int): World {
    At(s.(row := s.row.(stamp := Some(now)), peak := now), w,
       if s.row.attempts >= 2 then GivingUp(now) else Verifying(now))
  }

  lemma TakeoverReaches(p: Policy, s: World, w: WorkerId, now: int)
    requires InProgress(s.row) && s.row.connected && s.row.stamp.Some? && s.row.stamp.value < now
    requires w !in s.workers && !s.on
    ensures Reaches(p, s, Takeover(w, now), TakenBy(s, w, now))
  {
    var recovered := s.(row := s.row.(stamp := Some(now)), peak := now);
    var inspecting := At(recovered, w, Inspecting(now, s.row.attempts));
    One(p, s, Recover(now), recovered);
    One(p, recovered, Load(w), inspecting);
    assert inspecting.workers[w := TakenBy(s, w, now).workers[w]] == TakenBy(s, w, now).workers;
    One(p, inspecting, Act(w, Read(Stopped)), TakenBy(s, w, now));
    Chain(p, recovered, [Load(w)], inspecting, [Act(w, Read(Stopped))], TakenBy(s, w, now));
    Chain(p, s, [Recover(now)], recovered, [Load(w)] + [Act(w, Read(Stopped))], TakenBy(s, w, now));
  }

  // ---------- an attempt nobody interferes with ----------

  function Ending(w: WorkerId, fate: Fate): seq<Event> {
    match fate
    case Rejected => Rejection(w, true)
    case Accepted => [Act(w, Answer(Accepted))] + [Act(w, Complete)]
    case Lost(applied) => [Act(w, Answer(Lost(applied)))] + [Act(w, Park)]
  }

  function AttemptRun(w: WorkerId, attempts: nat, reading: Reading, fate: Fate): seq<Event> {
    match reading
    case Unclear => [Act(w, Read(Unclear))] + [Act(w, Park)]
    case Running => [Act(w, Read(Running))] + [Act(w, Sync)]
    case Stopped =>
      if attempts >= 2 then [Act(w, Read(Stopped))] + [Act(w, Mark)] else Attempt(w) + Ending(w, fate)
  }

  lemma TwoSteps(p: Policy, s: World, e: Event, f: Event)
    requires !e.Launch? && !f.Launch?
    ensures Follow(p, s, [e] + [f]) == Step(p, Step(p, s, e), f)
  {
    RunsJoin(p, s, [e], [f]);
    OneStep(p, s, e);
    OneStep(p, Step(p, s, e), f);
  }

  lemma RefusedLeads(s: World, w: WorkerId, stamp: int)
    requires w in s.workers && s.workers[w] == Refused(stamp) && Owned(s.row, stamp) && s.row.attempts <= 2
    ensures Follow(AS_WRITTEN, s, [Act(w, BlockConnection(true))] + [Act(w, Abort)]).row == Row(Idle, None, 0, false)
  {
    TwoSteps(AS_WRITTEN, s, Act(w, BlockConnection(true)), Act(w, Abort));
  }

  lemma RejectionLeads(s: World, w: WorkerId, stamp: int)
    requires w in s.workers && s.workers[w] == Sent(stamp) && Owned(s.row, stamp) && s.row.attempts <= 2
    ensures Follow(AS_WRITTEN, s, Rejection(w, true)).row == Row(Idle, None, 0, false)
  {
    RunsJoin(AS_WRITTEN, s, [Act(w, Answer(Rejected))], [Act(w, BlockConnection(true))] + [Act(w, Abort)]);
    OneStep(AS_WRITTEN, s, Act(w, Answer(Rejected)));
    RefusedLeads(Step(AS_WRITTEN, s, Act(w, Answer(Rejected))), w, stamp);
  }

  lemma EndingLeads(s: World, w: WorkerId, stamp: int, fate: Fate)
    requires w in s.workers && s.workers[w] == Sent(stamp) && Owned(s.row, stamp) && s.row.attempts <= 2
    ensures Follow(AS_WRITTEN, s, Ending(w, fate)).row ==
            match fate
            case Rejected => Row(Idle, None, 0, false)
            case Accepted => s.row.(state := Confirmed)
            case Lost(_) => s.row.(state := Reconciling)
  {
    match fate
    case Accepted => TwoSteps(AS_WRITTEN, s, Act(w, Answer(Accepted)), Act(w, Complete));
    case Lost(applied) => TwoSteps(AS_WRITTEN, s, Act(w, Answer(Lost(applied))), Act(w, Park));
    case Rejected => RejectionLeads(s, w, stamp);
  }

  /** The steps of a worker left alone do to the row what AttemptClaimedLaunch does. */
  lemma UninterruptedAttempt(s: World, w: WorkerId, stamp: int, reading: Reading, fate: Fate)
    requires w in s.workers && s.workers[w] == Verifying(stamp) && Owned(s.row, stamp) && TrueReading(s, reading)
    ensures Follow(AS_WRITTEN, s, AttemptRun(w, s.row.attempts, reading, fate)).row ==
            AttemptedRow(s.row, reading, fate)
  {
    match reading
    case Unclear => TwoSteps(AS_WRITTEN, s, Act(w, Read(Unclear)), Act(w, Park));
    case Running => TwoSteps(AS_WRITTEN, s, Act(w, Read(Running)), Act(w, Sync));
    case Stopped =>
      if s.row.attempts >= 2 {
        TwoSteps(AS_WRITTEN, s, Act(w, Read(Stopped)), Act(w, Mark));
      } else {
        AttemptReaches(AS_WRITTEN, s, w, stamp);
        EndingLeads(Tried(s, w, stamp), w, stamp, fate);
        RunsJoin(AS_WRITTEN, s, Attempt(w), Ending(w, fate));
      }
  }

  // ---------- a first attempt, and a second one ----------

  const LAUNCHED := At(
    START.(row := Row(Launching, Some(1), 0, true), peak := 1, base := 1, launch := 1), 0, Verifying(1))

  /** The first attempt's answer is lost. */
  const FIRST_LOST := ParkedBy(Tried(LAUNCHED, 0, 1), 0)

  /** A second worker has sent its attempt. */
  const SECOND_SENT := Tried(TakenBy(FIRST_LOST, 1, 2), 1, 2)

  function FirstLost(): seq<Event> { [Launch(0, 1, false)] + (Attempt(0) + Loss(0)) }

  function SecondSent(): seq<Event> { Takeover(1, 2) + Attempt(1) }

  lemma FirstLostReaches(p: Policy)
    ensures Reaches(p, START, FirstLost(), FIRST_LOST)
  {
    One(p, START, Launch(0, 1, false), LAUNCHED);
    AttemptReaches(p, LAUNCHED, 0, 1);
    LossReaches(p, Tried(LAUNCHED, 0, 1), 0, 1);
    Chain(p, LAUNCHED, Attempt(0), Tried(LAUNCHED, 0, 1), Loss(0), FIRST_LOST);
    Chain(p, START, [Launch(0, 1, false)], LAUNCHED, Attempt(0) + Loss(0), FIRST_LOST);
  }

  lemma FirstLostFacts()
    ensures FIRST_LOST.row == Row(Reconciling, Some(1), 1, true) && FIRST_LOST.workers == map[0 := Finished]
    ensures FIRST_LOST.marks == map[0 := 1] && FIRST_LOST.sent == {0} && FIRST_LOST.rejected == {}
    ensures !FIRST_LOST.on && FIRST_LOST.launch == 1 && !FIRST_LOST.relaunched
  {
  }

  lemma SecondSentReaches(p: Policy)
    ensures Reaches(p, FIRST_LOST, SecondSent(), SECOND_SENT)
  {
    FirstLostFacts();
    TakeoverReaches(p, FIRST_LOST, 1, 2);
    AttemptReaches(p, TakenBy(FIRST_LOST, 1, 2), 1, 2);
    Chain(p, FIRST_LOST, Takeover(1, 2), TakenBy(FIRST_LOST, 1, 2), Attempt(1), SECOND_SENT);
  }

  lemma SecondSentFacts()
    ensures SECOND_SENT.row == Row(Launching, Some(2), 2, true) && SECOND_SENT.peak == 2
    ensures SECOND_SENT.workers == map[0 := Finished, 1 := Sent(2)]
    ensures SECOND_SENT.marks == map[0 := 1, 1 := 1] && SECOND_SENT.sent == {0, 1} && SECOND_SENT.rejected == {}
    ensures !SECOND_SENT.on && SECOND_SENT.launch == 1 && !SECOND_SENT.relaunched
  {
    FirstLostFacts();
  }

  function SecondRejected(stored: bool): seq<Event> { FirstLost() + (SecondSent() + Rejection(1, stored)) }

  /** The second attempt's rejection releases the claim and forgets the first. */
  lemma SecondAttemptLeavesFirstOpen(p: Policy, stored: bool)
    requires p.lastAbort >= 2 && (p.blockedOnly ==> stored)
    ensures Reaches(p, START, SecondRejected(stored), ReleasedBy(SECOND_SENT, 1, stored))
    ensures var t := ReleasedBy(SECOND_SENT, 1, stored);
            && t.row == Row(Idle, None, 0, !stored) && t.peak == 2 && 2 !in t.workers
            && 0 in Open(t) && 0 in t.sent
  {
    SecondSentFacts();
    FirstLostReaches(p);
    SecondSentReaches(p);
    RejectionReaches(p, SECOND_SENT, 1, 2, stored);
    var t := ReleasedBy(SECOND_SENT, 1, stored);
    Chain(p, FIRST_LOST, SecondSent(), SECOND_SENT, Rejection(1, stored), t);
    Chain(p, START, FirstLost(), FIRST_LOST, SecondSent() + Rejection(1, stored), t);
  }

  // ---------- and an earlier launch ----------

  const BOTH_LOST := ParkedBy(SECOND_SENT, 1)

  /** A third worker gives the launch up. */
  const GIVEN_UP := At(TakenBy(BOTH_LOST, 2, 3).(row := Row(Failed, Some(3), 2, true)), 2, Finished)

  /** Its owner launches the campaign again. */
  const RELAUNCHED := At(
    GIVEN_UP.(row := Row(Launching, Some(4), 0, true), peak := 4, base := 4, launch := 2, relaunched := true),
    3, Verifying(4))

  const RELAUNCH_SENT := Tried(RELAUNCHED, 3, 4)

  function GivenUpRun(): seq<Event> { Loss(1) + (Takeover(2, 3) + [Act(2, GiveUp)]) }

  lemma GivenUpReaches(p: Policy)
    ensures Reaches(p, SECOND_SENT, GivenUpRun(), GIVEN_UP)
  {
    SecondSentFacts();
    LossReaches(p, SECOND_SENT, 1, 2);
    TakeoverReaches(p, BOTH_LOST, 2, 3);
    One(p, TakenBy(BOTH_LOST, 2, 3), Act(2, GiveUp), GIVEN_UP);
    Chain(p, BOTH_LOST, Takeover(2, 3), TakenBy(BOTH_LOST, 2, 3), [Act(2, GiveUp)], GIVEN_UP);
    Chain(p, SECOND_SENT, Loss(1), BOTH_LOST, Takeover(2, 3) + [Act(2, GiveUp)], GIVEN_UP);
  }

  lemma GivenUpFacts()
    ensures GIVEN_UP.row == Row(Failed, Some(3), 2, true) && GIVEN_UP.peak == 3 && GIVEN_UP.launch == 1
    ensures GIVEN_UP.workers == map[0 := Finished, 1 := Finished, 2 := Finished]
    ensures GIVEN_UP.marks == map[0 := 1, 1 := 1] && GIVEN_UP.sent == {0, 1} && GIVEN_UP.rejected == {}
    ensures !GIVEN_UP.on
  {
    SecondSentFacts();
  }

  lemma RelaunchSentReaches(p: Policy)
    ensures Reaches(p, GIVEN_UP, [Launch(3, 4, true)] + Attempt(3), RELAUNCH_SENT)
  {
    GivenUpFacts();
    One(p, GIVEN_UP, Launch(3, 4, true), RELAUNCHED);
    AttemptReaches(p, RELAUNCHED, 3, 4);
    Chain(p, GIVEN_UP, [Launch(3, 4, true)], RELAUNCHED, Attempt(3), RELAUNCH_SENT);
  }

  lemma RelaunchSentFacts()
    ensures RELAUNCH_SENT.row == Row(Launching, Some(4), 1, true) && RELAUNCH_SENT.peak == 4
    ensures RELAUNCH_SENT.workers == map[0 := Finished, 1 := Finished, 2 := Finished, 3 := Sent(4)]
    ensures RELAUNCH_SENT.marks == map[0 := 1, 1 := 1, 3 := 2] && RELAUNCH_SENT.sent == {0, 1, 3}
    ensures RELAUNCH_SENT.rejected == {} && RELAUNCH_SENT.relaunched
  {
    GivenUpFacts();
  }

  function RelaunchRun(stored: bool): seq<Event> {
    FirstLost() + (SecondSent() + (GivenUpRun() + (([Launch(3, 4, true)] + Attempt(3)) + Rejection(3, stored))))
  }

  lemma RelaunchReleasedReaches(p: Policy, stored: bool)
    requires p.lastAbort >= 1 && p.afterFailure && (p.blockedOnly ==> stored)
    ensures Reaches(p, GIVEN_UP, ([Launch(3, 4, true)] + Attempt(3)) + Rejection(3, stored),
                    ReleasedBy(RELAUNCH_SENT, 3, stored))
  {
    RelaunchSentFacts();
    RelaunchSentReaches(p);
    RejectionReaches(p, RELAUNCH_SENT, 3, 4, stored);
    Chain(p, GIVEN_UP, [Launch(3, 4, true)] + Attempt(3), RELAUNCH_SENT, Rejection(3, stored),
          ReleasedBy(RELAUNCH_SENT, 3, stored));
  }

  lemma RelaunchRunReaches(p: Policy, stored: bool, t: World)
    requires Reaches(p, GIVEN_UP, ([Launch(3, 4, true)] + Attempt(3)) + Rejection(3, stored), t)
    ensures Reaches(p, START, RelaunchRun(stored), t)
  {
    var last := ([Launch(3, 4, true)] + Attempt(3)) + Rejection(3, stored);
    FirstLostReaches(p);
    SecondSentReaches(p);
    GivenUpReaches(p);
    Chain(p, SECOND_SENT, GivenUpRun(), GIVEN_UP, last, t);
    Chain(p, FIRST_LOST, SecondSent(), SECOND_SENT, GivenUpRun() + last, t);
    Chain(p, START, FirstLost(), FIRST_LOST, SecondSent() + (GivenUpRun() + last), t);
  }

  /** After a failed launch with two open attempts, one rejected attempt of the next launch
      releases the claim and forgets them both. */
  lemma RelaunchLeavesEarlierOpen(p: Policy, stored: bool)
    requires p.lastAbort >= 1 && p.afterFailure && (p.blockedOnly ==> stored)
    ensures Reaches(p, START, RelaunchRun(stored), ReleasedBy(RELAUNCH_SENT, 3, stored))
    ensures var t := ReleasedBy(RELAUNCH_SENT, 3, stored);
            && t.row == Row(Idle, None, 0, !stored) && t.peak == 4 && 4 !in t.workers
            && {0, 1} <= Open(t) && {0, 1} <= t.sent
  {
    RelaunchSentFacts();
    RelaunchReleasedReaches(p, stored);
    RelaunchRunReaches(p, stored, ReleasedBy(RELAUNCH_SENT, 3, stored));
  }

  /** The claim is given up only with no attempt left open. */
  ghost predicate ReleasesNothingOpen(p: Policy) {
    forall run :: Timely(p, START, run) && Follow(p, START, run).row.state == Idle ==> Open(Follow(p, START, run)) == {}
  }

  /** No launch starts from idle while an attempt of an earlier launch may have taken effect. */
  ghost predicate NeverBlind(p: Policy) {
    forall run :: Timely(p, START, run) ==> NoBlindLaunch(p, START, run)
  }

  /** Main result: a claim is released with no attempt of any launch left open exactly when an
      abort is confined to the first attempt of a launch that took up no failed one. The code
      releases it in the other cases too. */
  lemma ReleasesNothingOpenExactly(p: Policy)
    ensures ReleasesNothingOpen(p) <==> p.lastAbort == 0 || (p.lastAbort == 1 && !p.afterFailure)
    ensures !ReleasesNothingOpen(AS_WRITTEN)
  {
    if Confined(p) {
      forall run | Timely(p, START, run) && Follow(p, START, run).row.state == Idle
        ensures Open(Follow(p, START, run)) == {}
      {
        FreshStart();
        GuardedRunsStayReleased(p, START, run);
      }
    } else if p.lastAbort == 1 {
      RelaunchLeavesEarlierOpen(p, true);
    } else {
      SecondAttemptLeavesFirstOpen(p, true);
    }
    SecondAttemptLeavesFirstOpen(AS_WRITTEN, true);
  }

  /** Main result: no launch starts blindly exactly when an abort is confined that way or to a
      connection known to be blocked. The code does neither: one lost write of the connection's
      status lets another launch start beside open attempts. */
  lemma NeverBlindExactly(p: Policy)
    ensures NeverBlind(p) <==> p.lastAbort == 0 || (p.lastAbort == 1 && !p.afterFailure) || p.blockedOnly
    ensures !NeverBlind(AS_WRITTEN)
  {
    if Confined(p) || p.blockedOnly {
      forall run | Timely(p, START, run) ensures NoBlindLaunch(p, START, run) {
        FreshStart();
        GuardedRunsNeverBlind(p, START, run);
      }
    } else {
      BlindLaunchHappens(p);
    }
    BlindLaunchHappens(AS_WRITTEN);
  }

  lemma BlindAgain(p: Policy, run: seq<Event>, t: World, again: Event)
    requires Reaches(p, START, run, t) && Blind(t, again) && again.now > t.peak
    ensures !NeverBlind(p)
  {
    OneStep(p, t, again);
    RunsJoin(p, START, run, [again]);
    assert Timely(p, START, run + [again]) && !NoBlindLaunch(p, START, run + [again]);
  }

  lemma BlindLaunchHappens(p: Policy)
    requires !Confined(p) && !p.blockedOnly
    ensures !NeverBlind(p)
  {
    if p.lastAbort == 1 {
      RelaunchLeavesEarlierOpen(p, false);
      BlindAgain(p, RelaunchRun(false), ReleasedBy(RELAUNCH_SENT, 3, false), Launch(4, 5, false));
    } else {
      SecondAttemptLeavesFirstOpen(p, false);
      BlindAgain(p, SecondRejected(false), ReleasedBy(SECOND_SENT, 1, false), Launch(2, 3, false));
    }
  }
}
