/**
 Publishing one post: scheduler workers and manual requests claim it, recheck approval, hand
 the message to MAX and record the outcome, while people edit, review and reschedule it and
 stale claims are recovered. Times are seconds.
 */
module Publication {

  type WorkerId = nat

  /** A payload of the post, numbered by the edit that produced it. */
  type Content = nat

  const STALE: int := 10 * 60
  const WORKER_LIMIT: int := 3 * 60 + 10

  datatype Option<T> = None | Some(value: T)

  datatype Status = Draft | Scheduled | Publishing | Failed | Published

  datatype Review = Unreviewed | InReview | Approved | ChangesRequested

  /** The stored post; `claim` numbers its publishing claims, `updated` is its last write. */
  datatype Post = Post(status: Status, slot: Option<int>, content: Content, review: Review, claim: nat, updated: int)

  datatype Cause = Cancelled | Other

  // ---------- the store's conditional writes ----------

  predicate ManuallyClaimable(p: Post) { p.status == Draft || p.status == Scheduled || p.status == Failed }

  predicate DueBy(p: Post, cycle: int) { p.status == Scheduled && p.slot.Some? && p.slot.value <= cycle }

  function Claimed(p: Post, claim: nat, now: int): Post {
    p.(status := Publishing, slot := None, claim := claim, updated := now)
  }

  function MarkedFailed(p: Post, now: int): Post {
    if p.status == Publishing then p.(status := Status.Failed, slot := None, updated := now) else p
  }

  function MarkedPublished(p: Post, now: int): Post {
    if p.status == Publishing then p.(status := Published, slot := None, updated := now) else p
  }

  function Restored(p: Post, slot: int, now: int): Post {
    if p.status == Publishing || p.status == Failed then p.(status := Scheduled, slot := Some(slot), updated := now)
    else p
  }

  function Recovered(p: Post, now: int): Post {
    if p.status == Publishing && p.updated < now - STALE then p.(status := Status.Failed, slot := None, updated := now)
    else p
  }

  predicate MayPublish(required: bool, p: Post) { required ==> p.review == Approved }

  // ---------- the post as an object, one worker at a time ----------

  /** How the steps between the second approval check and the answer of MAX turn out. */
  datatype Course = StopsBefore(cause: Cause) | Confirmed | Rejected(cause: Cause)

  datatype Report = Report(sent: bool, ok: bool)

  /** The post once a claimed publication has taken its course. */
  function Concluded(required: bool, p: Post, course: Course, now: int): Post {
    if MayPublish(required, p) && course == Confirmed then MarkedPublished(p, now) else MarkedFailed(p, now)
  }

  function PublishedByHand(required: bool, p: Post, claim: nat, course: Course, now: int): Post {
    if !MayPublish(required, p) || !ManuallyClaimable(p) then p
    else Concluded(required, Claimed(p, claim, now), course, now)
  }

  function PublishedFromSlot(required: bool, p: Post, cycle: int, claim: nat, course: Course, now: int): Post {
    if !DueBy(p, cycle) then p
    else
      var done := Concluded(required, Claimed(p, claim, now), course, now);
      if MayPublish(required, p) && course == StopsBefore(Cancelled) then Restored(done, p.slot.value, now) else done
  }

  class PostRow {
    var post: Post

    method ClaimScheduled(cycle: int, claim: nat, now: int) returns (ok: bool)
      modifies this
      ensures ok <==> DueBy(old(post), cycle)
      ensures post == if ok then Claimed(old(post), claim, now) else old(post)
    {
      ok := post.status == Scheduled && post.slot.Some? && post.slot.value <= cycle;
      if ok { post := post.(status := Publishing, slot := None, claim := claim, updated := now); }
    }

    method ClaimForPublishing(claim: nat, now: int) returns (ok: bool)
      modifies this
      ensures ok <==> ManuallyClaimable(old(post))
      ensures post == if ok then Claimed(old(post), claim, now) else old(post)
    {
      ok := post.status == Draft || post.status == Scheduled || post.status == Failed;
      if ok { post := post.(status := Publishing, slot := None, claim := claim, updated := now); }
    }

    method MarkPublishFailed(now: int)
      modifies this
      ensures post == MarkedFailed(old(post), now)
    {
      if post.status == Publishing { post := post.(status := Status.Failed, slot := None, updated := now); }
    }

    method MarkPublished(now: int)
      modifies this
      ensures post == MarkedPublished(old(post), now)
    {
      if post.status == Publishing { post := post.(status := Published, slot := None, updated := now); }
    }

    method RestoreInterruptedSchedule(slot: int, now: int)
      modifies this
      ensures post == Restored(old(post), slot, now)
    {
      if post.status == Publishing || post.status == Failed {
        post := post.(status := Scheduled, slot := Some(slot), updated := now);
      }
    }

    /** publishClaimedPost without interference; `sendStarted` is set just before the send. */
    method PublishClaimedPost(required: bool, course: Course, now: int)
      returns (report: Report, sendStarted: bool)
      requires post.status == Publishing
      modifies this
      ensures sendStarted <==> report.sent
      ensures report.sent <==> MayPublish(required, old(post)) && !course.StopsBefore?
      ensures report.ok <==> report.sent && course == Confirmed
      ensures post == Concluded(required, old(post), course, now)
      ensures post.status == if report.ok then Published else Status.Failed
    {
      sendStarted := false;
      if (required && post.review != Approved) || course.StopsBefore? {
        MarkPublishFailed(now);
        return Report(false, false), sendStarted;
      }
      sendStarted := true;
      if course.Rejected? {
        MarkPublishFailed(now);
        return Report(true, false), sendStarted;
      }
      MarkPublished(now);
      return Report(true, true), sendStarted;
    }

    /** PublishPost without interference: an unapproved post is not even claimed. */
    method PublishPost(required: bool, claim: nat, course: Course, now: int) returns (published: bool, sent: bool)
      modifies this
      ensures sent <==> ManuallyClaimable(old(post)) && MayPublish(required, old(post)) && !course.StopsBefore?
      ensures published <==> sent && course == Confirmed
      ensures post == PublishedByHand(required, old(post), claim, course, now)
      ensures !ManuallyClaimable(old(post)) || !MayPublish(required, old(post)) ==> post == old(post)
      ensures ManuallyClaimable(old(post)) && MayPublish(required, old(post)) ==>
                && post.status == (if published then Published else Status.Failed)
                && post.slot == None && post.content == old(post).content
    {
      published, sent := false, false;
      if required && post.review != Approved { return; }
      var claimed := ClaimForPublishing(claim, now);
      if !claimed { return; }
      var report, sendStarted := PublishClaimedPost(required, course, now);
      published, sent := report.ok, sendStarted;
    }

    /**
     publishScheduledPost without interference. A post is back in its slot only when its
     publication was cancelled before anything was sent; one that was sent is published or
     failed, never on the calendar.
     */
    method PublishScheduledPost(required: bool, cycle: int, claim: nat, course: Course, now: int)
      returns (published: bool, sent: bool)
      modifies this
      ensures sent <==> DueBy(old(post), cycle) && MayPublish(required, old(post)) && !course.StopsBefore?
      ensures published <==> sent && course == Confirmed
      ensures post == PublishedFromSlot(required, old(post), cycle, claim, course, now)
      ensures !DueBy(old(post), cycle) ==> post == old(post)
      ensures DueBy(old(post), cycle) ==>
                && post.status == (if published then Published
                                   else if MayPublish(required, old(post)) && course == StopsBefore(Cancelled)
                                   then Scheduled else Status.Failed)
                && post.slot == (if post.status == Scheduled then old(post).slot else None)
                && post.content == old(post).content
    {
      published, sent := false, false;
      var queued := post;
      if required && queued.review != Approved {
        var claimed := ClaimScheduled(cycle, claim, now);
        if claimed { MarkPublishFailed(now); }
        return;
      }
      var claimed := ClaimScheduled(cycle, claim, now);
      if !claimed { return; }
      var report, sendStarted := PublishClaimedPost(required, course, now);
      if !report.ok && course == StopsBefore(Cancelled) && !sendStarted && queued.slot.Some? {
        RestoreInterruptedSchedule(queued.slot.value, now);
      }
      published, sent := report.ok, sendStarted;
    }
  }

  // ---------- all interleavings ----------

  /** Whose publication it is; a scheduled one remembers the slot it read and its cycle's clock. */
  datatype Kind = Timed(slot: Option<int>, cycle: int) | Manual

  /** What the approval check after the claim finds stored, and when. */
  datatype Finding = Finding(content: Content, review: Review, claim: nat, at: int)

  datatype Phase =
    | Asked    // read and checked once, not yet claimed
    | Holding  // claimed
    | Checked(found: Finding)
    | Sent
    | Confirming
    | Failing(cause: Cause, sent: bool)
    | Restoring
    | Finished

  /** `first` is the review found before the claim, `content` the payload read with it. */
  datatype Worker = Worker(kind: Kind, first: Review, claim: nat, claimedAt: int, content: Content, phase: Phase)

  /** One request handed to MAX: its payload, the claim it was sent under, and both checks. */
  datatype Handover = Handover(content: Content, claim: nat, claimedAt: int, first: Review, found: Finding)

  /** `handed` counts the requests handed to MAX since a person last scheduled or published
      the post. */
  datatype World = World(
    post: Post, now: int, required: bool, workers: map<WorkerId, Worker>, claims: nat,
    handed: nat, log: seq<Handover>)

  datatype Action =
    | Claim
    | Check
    | Stop(cause: Cause)       // a failed check, preflight or upload
    | Send
    | Answer(confirmed: bool, cause: Cause)
    | Record(stored: bool)     // the outcome, unless its write fails
    | Restore
    | Crash

  datatype Event =
    | Tick(seconds: nat)
    | Edit(content: Content)
    | Submit
    | Decide(approved: bool)
    | Schedule(at: int)
    | CancelSlot
    | Click(worker: WorkerId)
    | Pick(worker: WorkerId, cycle: int)
    | Act(worker: WorkerId, action: Action)
    | Recover

  /** Whether a restore checks the claim it undoes, whether a manual publication is over within
      the time allowed to a scheduled one, and whether a scheduled one runs detached from
      cancellation. */
  datatype Policy = Policy(restoreFenced: bool, manualBounded: bool, detached: bool)

  /** The restore checks no claim; both callers of PublishPost allow it three minutes, and the
      caller of publishScheduledPost detaches it. */
  const AS_WRITTEN := Policy(false, true, true)

  function Start(required: bool): World {
    World(Post(Draft, None, 0, Unreviewed, 0, 0), 0, required, map[], 0, 0, [])
  }

  function At(s: World, w: WorkerId, k: Worker): World { s.(workers := s.workers[w := k]) }

  function Moved(s: World, w: WorkerId, k: Worker, phase: Phase): World { At(s, w, k.(phase := phase)) }

  predicate Bounded(p: Policy, k: Worker) { k.kind.Timed? || p.manualBounded }

  /** A bounded worker whose time is up takes no further step on its claim. */
  predicate InTime(p: Policy, s: World, k: Worker) {
    Bounded(p, k) ==> s.now <= k.claimedAt + WORKER_LIMIT
  }

  predicate MayFollow(required: bool, found: Review) { required ==> found == Approved }

  function OnClaim(s: World, w: WorkerId, k: Worker): World
    requires k.phase.Asked?
  {
    if !(if k.kind.Manual? then ManuallyClaimable(s.post) else DueBy(s.post, k.kind.cycle))
    then Moved(s, w, k, Finished)
    else
      At(s.(post := Claimed(s.post, s.claims + 1, s.now), claims := s.claims + 1,
            handed := if k.kind.Manual? then 0 else s.handed),
         w, Worker(k.kind, k.first, s.claims + 1, s.now, s.post.content,
                   if k.kind.Manual? || MayFollow(s.required, k.first) then Holding else Failing(Other, false)))
  }

  function OnRecord(s: World, w: WorkerId, k: Worker, stored: bool): World
    requires k.phase.Confirming? || k.phase.Failing?
  {
    if k.phase.Confirming? then
      Moved(if stored then s.(post := MarkedPublished(s.post, s.now)) else s, w, k, Finished)
    else
      Moved(if stored then s.(post := MarkedFailed(s.post, s.now)) else s, w, k,
            if k.phase.cause == Cancelled && !k.phase.sent && k.kind.Timed? && k.kind.slot.Some? then Restoring
            else Finished)
  }

  function OnRestore(p: Policy, s: World, w: WorkerId, k: Worker): World {
    if k.kind.Manual? || k.kind.slot.None? || (p.restoreFenced && s.post.claim != k.claim)
    then Moved(s, w, k, Finished)
    else Moved(s.(post := Restored(s.post, k.kind.slot.value, s.now)), w, k, Finished)
  }

  function Acted(p: Policy, s: World, w: WorkerId, k: Worker, a: Action): World {
    match a
    case Claim => if k.phase.Asked? then OnClaim(s, w, k) else s
    case Check =>
      if !k.phase.Holding? || !InTime(p, s, k) then s
      else
        Moved(s, w, k, if MayPublish(s.required, s.post)
                       then Checked(Finding(s.post.content, s.post.review, s.post.claim, s.now))
                       else Failing(Other, false))
    case Stop(cause) =>
      if !k.phase.Holding? && !k.phase.Checked? then s
      else if p.detached && k.kind.Timed? && cause == Cancelled then s
      else Moved(s, w, k, Failing(cause, false))
    case Send =>
      if !k.phase.Checked? || !InTime(p, s, k) then s
      else
        var handover := Handover(k.content, k.claim, k.claimedAt, k.first, k.phase.found);
        Moved(s.(handed := s.handed + 1, log := s.log + [handover]), w, k, Sent)
    case Answer(confirmed, cause) =>
      if k.phase.Sent? then Moved(s, w, k, if confirmed then Confirming else Failing(cause, true)) else s
    case Record(stored) =>
      if (k.phase.Confirming? || k.phase.Failing?) && InTime(p, s, k) then OnRecord(s, w, k, stored) else s
    case Restore => if k.phase.Restoring? then OnRestore(p, s, w, k) else s
    case Crash => Moved(s, w, k, Finished)
  }

  function Arriving(kind: Kind, p: Post): Worker { Worker(kind, p.review, 0, 0, 0, Asked) }

  function Step(p: Policy, s: World, e: Event): World {
    match e
    case Tick(seconds) => s.(now := s.now + seconds)
    case Edit(content) =>
      if s.post.status == Publishing || s.post.status == Published then s
      else s.(post := s.post.(content := content, review := Unreviewed, updated := s.now))
    case Submit =>
      if s.post.review == InReview then s else s.(post := s.post.(review := InReview, updated := s.now))
    case Decide(approved) =>
      if s.post.review != InReview then s
      else s.(post := s.post.(review := if approved then Approved else ChangesRequested, updated := s.now))
    case Schedule(at) =>
      if !ManuallyClaimable(s.post) || !MayPublish(s.required, s.post) || at <= s.now then s
      else s.(post := s.post.(status := Scheduled, slot := Some(at), updated := s.now), handed := 0)
    case CancelSlot =>
      if s.post.status != Scheduled then s
      else s.(post := s.post.(status := Draft, slot := None, updated := s.now))
    case Click(w) =>
      if w in s.workers || !MayPublish(s.required, s.post) then s
      else At(s, w, Arriving(Manual, s.post))
    case Pick(w, cycle) =>
      if w in s.workers || cycle > s.now then s
      else At(s, w, Arriving(Timed(s.post.slot, cycle), s.post))
    case Act(w, a) => if w in s.workers then Acted(p, s, w, s.workers[w], a) else s
    case Recover => s.(post := Recovered(s.post, s.now))
  }

  function Follow(p: Policy, s: World, run: seq<Event>): World
    decreases |run|
  {
    if run == [] then s else Follow(p, Step(p, s, run[0]), run[1..])
  }

  // ---------- the guarantees ----------

  /** One request per decision of a person, and none sent for a post on the calendar. */
  predicate OneHandover(s: World) {
    s.handed <= 1 && (s.post.status == Scheduled ==> s.handed == 0)
  }

  /** The payload sent is the one the check found stored under the sender's own claim, after
      that claim; where approval is required it was approved then, and before the claim too. */
  predicate Backed(required: bool, h: Handover) {
    && h.found.content == h.content && h.found.claim == h.claim && h.claimedAt <= h.found.at
    && (required ==> h.first == Approved && h.found.review == Approved)
  }

  predicate ApprovedContent(s: World) {
    forall i :: 0 <= i < |s.log| ==> Backed(s.required, s.log[i])
  }

  // ---------- why they hold with both safeguards ----------

  /** Between its claim and the record of its outcome. */
  predicate Active(ph: Phase) {
    ph.Holding? || ph.Checked? || ph.Sent? || ph.Confirming? || ph.Failing?
  }

  predicate Unsent(ph: Phase) {
    ph.Holding? || ph.Checked? || (ph.Failing? && !ph.sent) || ph.Restoring?
  }

  /** A worker in time still owns the post it claimed, and one that has sent nothing has not
      used up what its claim stands for. */
  ghost predicate WorkerSound(s: World, k: Worker) {
    && k.claim <= s.claims
    && (Active(k.phase) && s.now <= k.claimedAt + WORKER_LIMIT ==>
          && s.post.status == Publishing && s.post.claim == k.claim && s.post.content == k.content
          && k.claimedAt <= s.post.updated <= s.now)
    && (Unsent(k.phase) && s.post.claim == k.claim ==> s.handed == 0)
    && (k.kind.Manual? && k.phase.Asked? ==> MayFollow(s.required, k.first))
    && (k.phase.Holding? ==> MayFollow(s.required, k.first))
    && (k.phase.Checked? ==> Backed(s.required, Handover(k.content, k.claim, k.claimedAt, k.first, k.phase.found)))
  }

  predicate Claiming(ph: Phase) { Active(ph) || ph.Restoring? }

  predicate BothClaiming(s: World, v: WorkerId, w: WorkerId)
    requires v in s.workers && w in s.workers
  {
    Claiming(s.workers[v].phase) && Claiming(s.workers[w].phase)
  }

  ghost predicate Sound(s: World) {
    && OneHandover(s) && ApprovedContent(s) && s.post.claim == s.claims && s.post.updated <= s.now
    && (forall w :: w in s.workers ==> WorkerSound(s, s.workers[w]))
    && (forall v, w :: v in s.workers && w in s.workers && v != w && BothClaiming(s, v, w) ==>
          s.workers[v].claim != s.workers[w].claim)
  }

  const SAFE := Policy(true, true, false)

  /** Nobody but the owner is active in time. */
  lemma OthersAreLate(s: World, w: WorkerId, v: WorkerId)
    requires Sound(s) && w in s.workers && v in s.workers && v != w
    requires Claiming(s.workers[w].phase) && s.workers[w].claim == s.post.claim
    ensures Active(s.workers[v].phase) ==> s.now > s.workers[v].claimedAt + WORKER_LIMIT
    ensures Claiming(s.workers[v].phase) ==> s.workers[v].claim != s.post.claim
  {
    assert BothClaiming(s, v, w) <==> Claiming(s.workers[v].phase);
    assert WorkerSound(s, s.workers[v]);
  }

  /** The post is free: nobody is active in time. */
  lemma FreePostHasNoOwner(s: World, v: WorkerId)
    requires Sound(s) && s.post.status != Publishing && v in s.workers
    ensures Active(s.workers[v].phase) ==> s.now > s.workers[v].claimedAt + WORKER_LIMIT
  {
    assert WorkerSound(s, s.workers[v]);
  }

  /** A worker moves on without a new claim and without touching the post. */
  lemma MovedStaysSound(s: World, w: WorkerId, ph: Phase)
    requires Sound(s) && w in s.workers && WorkerSound(s, s.workers[w].(phase := ph))
    requires Claiming(ph) ==> Claiming(s.workers[w].phase)
    ensures Sound(Moved(s, w, s.workers[w], ph))
  {
  }

  lemma ArrivalStaysSound(s: World, w: WorkerId, k: Worker)
    requires Sound(s) && w !in s.workers && k.phase.Asked? && k.claim == 0
    requires k.kind.Manual? ==> MayFollow(s.required, k.first)
    ensures Sound(At(s, w, k))
  {
    forall v | v in At(s, w, k).workers ensures WorkerSound(At(s, w, k), At(s, w, k).workers[v]) {
      if v != w { assert WorkerSound(s, s.workers[v]); }
    }
  }

  lemma ClaimStaysSound(s: World, w: WorkerId)
    requires Sound(s) && w in s.workers && s.workers[w].phase.Asked?
    ensures Sound(OnClaim(s, w, s.workers[w]))
  {
    var t := OnClaim(s, w, s.workers[w]);
    if s.post.status == Publishing || t.claims == s.claims {
      MovedStaysSound(s, w, Finished);
    } else {
      forall v | v in t.workers ensures WorkerSound(t, t.workers[v]) {
        if v != w {
          assert WorkerSound(s, s.workers[v]);
          FreePostHasNoOwner(s, v);
        }
      }
      forall v | v in s.workers && v != w ensures t.workers[v].claim != t.workers[w].claim {
        assert WorkerSound(s, s.workers[v]);
      }
    }
  }

  lemma SendStaysSound(s: World, w: WorkerId)
    requires Sound(s) && w in s.workers && s.workers[w].phase.Checked? && InTime(SAFE, s, s.workers[w])
    ensures Sound(Step(SAFE, s, Act(w, Send)))
  {
    var t := Step(SAFE, s, Act(w, Send));
    assert WorkerSound(s, s.workers[w]);
    forall v | v in t.workers ensures WorkerSound(t, t.workers[v]) {
      if v != w {
        assert WorkerSound(s, s.workers[v]);
        OthersAreLate(s, w, v);
      }
    }
  }

  /** The owner gives the post up: failed, published or back in its slot. */
  lemma ReleaseStaysSound(s: World, w: WorkerId, t: World, ph: Phase)
    requires Sound(s) && w in s.workers && s.workers[w].claim == s.post.claim && Claiming(s.workers[w].phase)
    requires t == Moved(s.(post := t.post), w, s.workers[w], ph) && !Active(ph) && !ph.Asked?
    requires t.post.claim == s.post.claim && t.post.updated <= t.now
    requires t.post.status == Scheduled ==> s.handed == 0
    requires Unsent(ph) ==> s.handed == 0
    ensures Sound(t)
  {
    forall v | v in t.workers ensures WorkerSound(t, t.workers[v]) {
      if v != w {
        assert WorkerSound(s, s.workers[v]);
        OthersAreLate(s, w, v);
      } else {
        assert WorkerSound(s, s.workers[w]);
      }
    }
  }

  lemma RecordStaysSound(s: World, w: WorkerId, stored: bool)
    requires Sound(s) && w in s.workers && InTime(SAFE, s, s.workers[w])
    requires s.workers[w].phase.Confirming? || s.workers[w].phase.Failing?
    ensures Sound(OnRecord(s, w, s.workers[w], stored))
  {
    assert WorkerSound(s, s.workers[w]);
    var t := OnRecord(s, w, s.workers[w], stored);
    ReleaseStaysSound(s, w, t, t.workers[w].phase);
  }

  lemma RestoreStaysSound(s: World, w: WorkerId)
    requires Sound(s) && w in s.workers && s.workers[w].phase.Restoring?
    ensures Sound(OnRestore(SAFE, s, w, s.workers[w]))
  {
    var t := OnRestore(SAFE, s, w, s.workers[w]);
    assert WorkerSound(s, s.workers[w]);
    if s.post.claim == s.workers[w].claim { ReleaseStaysSound(s, w, t, Finished); }
    else { MovedStaysSound(s, w, Finished); }
  }

  lemma ActionStaysSound(s: World, w: WorkerId, a: Action)
    requires Sound(s) && w in s.workers
    ensures Sound(Step(SAFE, s, Act(w, a)))
  {
    var k, t := s.workers[w], Step(SAFE, s, Act(w, a));
    assert WorkerSound(s, k);
    match a
    case Claim => if k.phase.Asked? { ClaimStaysSound(s, w); }
    case Check => if t != s { MovedStaysSound(s, w, t.workers[w].phase); }
    case Stop(cause) => if t != s { MovedStaysSound(s, w, t.workers[w].phase); }
    case Send => if k.phase.Checked? && InTime(SAFE, s, k) { SendStaysSound(s, w); }
    case Answer(confirmed, cause) => if t != s { MovedStaysSound(s, w, t.workers[w].phase); }
    case Record(stored) =>
      if (k.phase.Confirming? || k.phase.Failing?) && InTime(SAFE, s, k) { RecordStaysSound(s, w, stored); }
    case Restore => if k.phase.Restoring? { RestoreStaysSound(s, w); }
    case Crash => MovedStaysSound(s, w, Finished);
  }

  /** People and the clock change the post only where no worker in time owns it; reviews touch
      no payload. */
  lemma OthersStaySound(s: World, t: World)
    requires Sound(s) && t == s.(post := t.post, now := t.now, handed := t.handed)
    requires t.now >= s.now && t.post.claim == s.post.claim && s.post.updated <= t.post.updated <= t.now
    requires t.handed == s.handed || t.handed == 0
    requires t.post.status == Scheduled ==> t.handed == 0
    requires s.post.status == Publishing && t.now <= s.post.updated + STALE ==>
               t.post.status == s.post.status && t.post.content == s.post.content
    ensures Sound(t)
  {
    forall v | v in t.workers ensures WorkerSound(t, t.workers[v]) {
      assert WorkerSound(s, s.workers[v]);
    }
  }

  lemma StepStaysSound(s: World, e: Event)
    requires Sound(s)
    ensures Sound(Step(SAFE, s, e))
  {
    match e
    case Act(w, a) => if w in s.workers { ActionStaysSound(s, w, a); }
    case Click(w) =>
      if w !in s.workers && MayPublish(s.required, s.post) { ArrivalStaysSound(s, w, Arriving(Manual, s.post)); }
    case Pick(w, cycle) =>
      if w !in s.workers && cycle <= s.now { ArrivalStaysSound(s, w, Arriving(Timed(s.post.slot, cycle), s.post)); }
    case Tick(_) => OthersStaySound(s, Step(SAFE, s, e));
    case Edit(_) => OthersStaySound(s, Step(SAFE, s, e));
    case Submit => OthersStaySound(s, Step(SAFE, s, e));
    case Decide(_) => OthersStaySound(s, Step(SAFE, s, e));
    case Schedule(_) => OthersStaySound(s, Step(SAFE, s, e));
    case CancelSlot => OthersStaySound(s, Step(SAFE, s, e));
    case Recover => OthersStaySound(s, Step(SAFE, s, e));
  }

  /** A policy that lets no restore undo a later claim and no manual worker outlive its time. */
  predicate Guarded(p: Policy) { p.manualBounded && (p.restoreFenced || p.detached) }

  /** Scheduled publications that are never cancelled have no slot to restore. */
  predicate NothingToRestore(s: World) {
    forall w :: w in s.workers && s.workers[w].kind.Timed? ==>
      !s.workers[w].phase.Restoring? && s.workers[w].phase != Failing(Cancelled, false)
  }

  lemma DetachedWorkerNeverRestores(p: Policy, s: World, w: WorkerId, a: Action)
    requires p.detached && NothingToRestore(s) && w in s.workers
    ensures var t := Step(p, s, Act(w, a));
            && t.workers == s.workers[w := t.workers[w]]
            && (t.workers[w].kind.Timed? ==>
                  !t.workers[w].phase.Restoring? && t.workers[w].phase != Failing(Cancelled, false))
  {
    assert s.workers == s.workers[w := s.workers[w]];
  }

  lemma DetachedNeverRestores(p: Policy, s: World, e: Event)
    requires p.detached && NothingToRestore(s)
    ensures NothingToRestore(Step(p, s, e))
  {
    if e.Act? && e.worker in s.workers { DetachedWorkerNeverRestores(p, s, e.worker, e.action); }
  }

  lemma GuardedStepIsSafe(p: Policy, s: World, e: Event)
    requires Guarded(p) && (p.restoreFenced || NothingToRestore(s))
    ensures Step(p, s, e) == s || Step(p, s, e) == Step(SAFE, s, e)
  {
  }

  /** Under every guarded policy, the code's among them, the invariant holds over every run. */
  lemma {:induction false} SafeguardsSuffice(p: Policy, s: World, run: seq<Event>)
    requires Guarded(p) && Sound(s) && (p.detached ==> NothingToRestore(s))
    ensures Sound(Follow(p, s, run))
    decreases |run|
  {
    if run != [] {
      StepStaysSound(s, run[0]);
      GuardedStepIsSafe(p, s, run[0]);
      if p.detached { DetachedNeverRestores(p, s, run[0]); }
      SafeguardsSuffice(p, Step(p, s, run[0]), run[1..]);
    }
  }

  /** The code, called as it is, keeps both guarantees in every run. */
  lemma CodeKeepsGuarantees(required: bool, run: seq<Event>)
    ensures OneHandover(Follow(AS_WRITTEN, Start(required), run))
    ensures ApprovedContent(Follow(AS_WRITTEN, Start(required), run))
  {
    SafeguardsSuffice(AS_WRITTEN, Start(required), run);
  }

  /** No restore undoes a later claim, and no step of a claim comes after the worker's time. */
  predicate Undisturbed(s: World, e: Event) {
    e.Act? && e.worker in s.workers ==>
      var k := s.workers[e.worker];
      && (e.action.Restore? && k.phase.Restoring? ==> s.post.claim == k.claim)
      && (e.action.Check? || e.action.Send? || e.action.Record? ==> InTime(SAFE, s, k))
  }

  predicate UndisturbedRun(p: Policy, s: World, run: seq<Event>)
    decreases |run|
  {
    run != [] ==> Undisturbed(s, run[0]) && UndisturbedRun(p, Step(p, s, run[0]), run[1..])
  }

  /** However they are called, the functions keep both guarantees in every run without those
      two disturbances. */
  lemma {:induction false} UndisturbedRunsKeepGuarantees(p: Policy, s: World, run: seq<Event>)
    requires Sound(s) && UndisturbedRun(p, s, run)
    ensures OneHandover(Follow(p, s, run)) && ApprovedContent(Follow(p, s, run))
    decreases |run|
  {
    if run != [] {
      StepStaysSound(s, run[0]);
      assert Step(p, s, run[0]) == s || Step(p, s, run[0]) == Step(SAFE, s, run[0]);
      UndisturbedRunsKeepGuarantees(p, Step(p, s, run[0]), run[1..]);
    }
  }

  // ---------- and why both are needed ----------

  lemma FollowFirst(p: Policy, s: World, e: Event, rest: seq<Event>)
    ensures Follow(p, s, [e] + rest) == Follow(p, Step(p, s, e), rest)
  {
    assert ([e] + rest)[1..] == rest;
  }

  lemma FollowThree(p: Policy, s: World, e: Event, f: Event, g: Event, rest: seq<Event>)
    ensures Follow(p, s, [e, f, g] + rest) == Follow(p, Step(p, Step(p, Step(p, s, e), f), g), rest)
  {
    FollowFirst(p, s, e, [f, g] + rest);
    FollowFirst(p, Step(p, s, e), f, [g] + rest);
    FollowFirst(p, Step(p, Step(p, s, e), f), g, rest);
    assert [e, f, g] + rest == [e] + ([f] + ([g] + rest));
    assert [f, g] + rest == [f] + ([g] + rest);
  }

  lemma {:induction false} RunsJoin(p: Policy, s: World, a: seq<Event>, b: seq<Event>)
    ensures Follow(p, s, a + b) == Follow(p, Follow(p, s, a), b)
    decreases |a|
  {
    if a == [] {
      assert a + b == b;
    } else {
      assert (a + b)[1..] == a[1..] + b;
      RunsJoin(p, Step(p, s, a[0]), a[1..], b);
    }
  }

  /** Three events that lead from one world to another. */
  lemma Leg(p: Policy, s: World, e: Event, f: Event, g: Event, t: World)
    requires Step(p, Step(p, Step(p, s, e), f), g) == t
    ensures Follow(p, s, [e, f, g]) == t
  {
    FollowThree(p, s, e, f, g, []);
    assert [e, f, g] + [] == [e, f, g];
  }

  const TIMED := Worker(Timed(Some(1), 1), Approved, 1, 1, 0, Holding)

  /** The post is claimed from its slot by worker 0. */
  const CLAIMED_FROM_SLOT := Start(true).(
    post := Post(Publishing, None, 0, Approved, 1, 1), now := 1, claims := 1, workers := map[0 := TIMED])

  /** Worker 0 was cancelled and has yet to restore the slot; worker 1 has claimed since. */
  const BEFORE_RESTORE := Start(true).(
    post := Post(Publishing, None, 0, Approved, 2, 1), now := 1, claims := 2,
    workers := map[0 := TIMED.(phase := Restoring), 1 := Worker(Manual, Approved, 2, 1, 0, Holding)])

  function ToSlotClaim(): seq<Event> {
    [Submit, Decide(true), Schedule(1)] + [Tick(1), Pick(0, 1), Act(0, Claim)]
  }

  function ToRestore(): seq<Event> {
    ToSlotClaim() + ([Act(0, Stop(Cancelled)), Act(0, Record(true)), Click(1)] + [Act(1, Claim)])
  }

  lemma ToSlotClaimReaches(p: Policy)
    ensures Follow(p, Start(true), ToSlotClaim()) == CLAIMED_FROM_SLOT
  {
    var scheduled := Start(true).(post := Post(Scheduled, Some(1), 0, Approved, 0, 0));
    Leg(p, Start(true), Submit, Decide(true), Schedule(1), scheduled);
    Leg(p, scheduled, Tick(1), Pick(0, 1), Act(0, Claim), CLAIMED_FROM_SLOT);
    RunsJoin(p, Start(true), [Submit, Decide(true), Schedule(1)], [Tick(1), Pick(0, 1), Act(0, Claim)]);
  }

  lemma CancelledThenClicked(p: Policy)
    requires !p.detached
    ensures var run := [Act(0, Stop(Cancelled)), Act(0, Record(true)), Click(1)] + [Act(1, Claim)];
            Follow(p, CLAIMED_FROM_SLOT, run) == BEFORE_RESTORE
  {
    var clicked := CLAIMED_FROM_SLOT.(
      post := Post(Status.Failed, None, 0, Approved, 1, 1),
      workers := map[0 := TIMED.(phase := Restoring), 1 := Worker(Manual, Approved, 0, 0, 0, Asked)]);
    Leg(p, CLAIMED_FROM_SLOT, Act(0, Stop(Cancelled)), Act(0, Record(true)), Click(1), clicked);
    RunsJoin(p, CLAIMED_FROM_SLOT, [Act(0, Stop(Cancelled)), Act(0, Record(true)), Click(1)], [Act(1, Claim)]);
    FollowFirst(p, clicked, Act(1, Claim), []);
  }

  lemma ToRestoreReaches(p: Policy)
    requires !p.detached
    ensures Follow(p, Start(true), ToRestore()) == BEFORE_RESTORE
  {
    ToSlotClaimReaches(p);
    CancelledThenClicked(p);
    var rest := [Act(0, Stop(Cancelled)), Act(0, Record(true)), Click(1)] + [Act(1, Claim)];
    RunsJoin(p, Start(true), ToSlotClaim(), rest);
  }

  lemma RestoreTakesThePost(p: Policy)
    requires !p.restoreFenced
    ensures Follow(p, BEFORE_RESTORE, [Act(0, Restore), Edit(7), Submit]) ==
            BEFORE_RESTORE.(post := Post(Scheduled, Some(1), 7, InReview, 2, 1),
                            workers := BEFORE_RESTORE.workers[0 := TIMED.(phase := Finished)])
  {
    FollowThree(p, BEFORE_RESTORE, Act(0, Restore), Edit(7), Submit, []);
    assert [Act(0, Restore), Edit(7), Submit] + [] == [Act(0, Restore), Edit(7), Submit];
  }

  /** Payload 0 goes out although the check found payload 7. */
  const OLD_PAYLOAD := Handover(0, 2, 1, Approved, Finding(7, Approved, 2, 1))

  lemma OldPayloadIsSent(p: Policy, s: World)
    requires s.post.status == Scheduled && s.post.review == InReview && s.post.content == 7 && s.post.claim == 2
    requires 1 in s.workers && s.workers[1] == Worker(Manual, Approved, 2, 1, 0, Holding) && s.now == 1
    requires s.handed == 0 && s.log == []
    ensures var t := Follow(p, s, [Decide(true), Act(1, Check), Act(1, Send)]);
            t.log == [OLD_PAYLOAD] && t.handed == 1 && t.post.status == Scheduled
  {
    var decided := Step(p, s, Decide(true));
    var checked := Step(p, decided, Act(1, Check));
    var found := Checked(Finding(7, Approved, 2, 1));
    assert checked == decided.(workers := s.workers[1 := Worker(Manual, Approved, 2, 1, 0, found)]);
    FollowThree(p, s, Decide(true), Act(1, Check), Act(1, Send), []);
    assert [Decide(true), Act(1, Check), Act(1, Send)] + [] == [Decide(true), Act(1, Check), Act(1, Send)];
  }

  /** A restore takes the post from the worker that has claimed it since, the post is edited and
      approved anew, and that worker sends the old payload of a post on the calendar. */
  function RestoreMisfires(): seq<Event> {
    ToRestore() + ([Act(0, Restore), Edit(7), Submit] + [Decide(true), Act(1, Check), Act(1, Send)])
  }

  lemma UnfencedRestoreFails(p: Policy)
    requires !p.restoreFenced && !p.detached
    ensures var s := Follow(p, Start(true), RestoreMisfires());
            !OneHandover(s) && s.log == [OLD_PAYLOAD] && !ApprovedContent(s)
  {
    var tail := [Act(0, Restore), Edit(7), Submit] + [Decide(true), Act(1, Check), Act(1, Send)];
    RunsJoin(p, Start(true), ToRestore(), tail);
    ToRestoreReaches(p);
    RestoreTakesThePost(p);
    RunsJoin(p, BEFORE_RESTORE, [Act(0, Restore), Edit(7), Submit], [Decide(true), Act(1, Check), Act(1, Send)]);
    OldPayloadIsSent(p, Follow(p, BEFORE_RESTORE, [Act(0, Restore), Edit(7), Submit]));
    assert Follow(p, Start(true), RestoreMisfires()).log[0] == OLD_PAYLOAD;
  }

  const STALLED := Worker(Manual, Approved, 1, 0, 0, Holding)

  /** Worker 0's claim was recovered after ten minutes, the post is edited and approved anew. */
  const RECOVERED := Start(true).(
    post := Post(Status.Failed, None, 7, Approved, 1, STALE + 1), now := STALE + 1, claims := 1,
    workers := map[0 := STALLED])

  /** Its successor has claimed the post as well. */
  const BEFORE_LATE_SEND := RECOVERED.(
    post := Post(Publishing, None, 7, Approved, 2, STALE + 1), claims := 2,
    workers := map[0 := STALLED, 1 := Worker(Manual, Approved, 2, STALE + 1, 7, Holding)])

  function ToRecovered(): seq<Event> {
    [Submit, Decide(true), Click(0)] +
    ([Act(0, Claim), Tick(STALE + 1), Recover] + [Edit(7), Submit, Decide(true)])
  }

  lemma ToRecoveredReaches(p: Policy)
    ensures Follow(p, Start(true), ToRecovered()) == RECOVERED
  {
    var tail := [Act(0, Claim), Tick(STALE + 1), Recover] + [Edit(7), Submit, Decide(true)];
    var clicked := Start(true).(
      post := Post(Draft, None, 0, Approved, 0, 0), workers := map[0 := Worker(Manual, Approved, 0, 0, 0, Asked)]);
    Leg(p, Start(true), Submit, Decide(true), Click(0), clicked);
    var failed := RECOVERED.(post := Post(Status.Failed, None, 0, Approved, 1, STALE + 1));
    Leg(p, clicked, Act(0, Claim), Tick(STALE + 1), Recover, failed);
    Leg(p, failed, Edit(7), Submit, Decide(true), RECOVERED);
    RunsJoin(p, Start(true), [Submit, Decide(true), Click(0)], tail);
    RunsJoin(p, clicked, [Act(0, Claim), Tick(STALE + 1), Recover], [Edit(7), Submit, Decide(true)]);
  }

  lemma SuccessorClaims(p: Policy)
    ensures Follow(p, RECOVERED, [Click(1)] + [Act(1, Claim)]) == BEFORE_LATE_SEND
  {
    FollowFirst(p, RECOVERED, Click(1), [Act(1, Claim)]);
    var clicked := RECOVERED.(workers := map[0 := STALLED, 1 := Worker(Manual, Approved, 0, 0, 0, Asked)]);
    assert Step(p, RECOVERED, Click(1)) == clicked;
    FollowFirst(p, clicked, Act(1, Claim), []);
  }

  const LATE_FINDING := Finding(7, Approved, 2, STALE + 1)

  const IN_TIME := Handover(7, 2, STALE + 1, Approved, LATE_FINDING)

  const TOO_LATE := Handover(0, 1, 0, Approved, LATE_FINDING)

  lemma BothSend(p: Policy)
    requires !p.manualBounded
    ensures var s := Follow(p, BEFORE_LATE_SEND, [Act(1, Check), Act(1, Send), Act(0, Check)] + [Act(0, Send)]);
            s.log == [IN_TIME, TOO_LATE] && s.handed == 2
  {
    var s0 := BEFORE_LATE_SEND;
    var checked := Step(p, s0, Act(1, Check));
    assert checked == s0.(workers := map[0 := STALLED, 1 := s0.workers[1].(phase := Checked(LATE_FINDING))]);
    var sent := Step(p, checked, Act(1, Send));
    assert sent == s0.(handed := 1, log := [IN_TIME],
                       workers := map[0 := STALLED, 1 := s0.workers[1].(phase := Sent)]);
    var late := Step(p, sent, Act(0, Check));
    assert late == sent.(workers := map[0 := STALLED.(phase := Checked(LATE_FINDING)), 1 := sent.workers[1]]);
    FollowThree(p, s0, Act(1, Check), Act(1, Send), Act(0, Check), [Act(0, Send)]);
    FollowFirst(p, late, Act(0, Send), []);
  }

  /** A manual worker overtaken by stale recovery sends after its successor has. */
  function LateSend(): seq<Event> {
    ToRecovered() +
    (([Click(1)] + [Act(1, Claim)]) + ([Act(1, Check), Act(1, Send), Act(0, Check)] + [Act(0, Send)]))
  }

  lemma UnboundedManualFails(p: Policy)
    requires !p.manualBounded
    ensures var s := Follow(p, Start(true), LateSend());
            s.handed == 2 && !OneHandover(s) && s.log == [IN_TIME, TOO_LATE] && !ApprovedContent(s)
  {
    var claims := [Click(1)] + [Act(1, Claim)];
    var sends := [Act(1, Check), Act(1, Send), Act(0, Check)] + [Act(0, Send)];
    RunsJoin(p, Start(true), ToRecovered(), claims + sends);
    RunsJoin(p, RECOVERED, claims, sends);
    ToRecoveredReaches(p);
    SuccessorClaims(p);
    BothSend(p);
    assert Follow(p, Start(true), LateSend()).log[1] == TOO_LATE;
  }

  // ---------- what MAX answered, and what the post says ----------

  /** MAX confirms the request of a worker that has sent one. */
  predicate Confirms(s: World, e: Event) {
    e.Act? && e.action.Answer? && e.action.confirmed && e.worker in s.workers && s.workers[e.worker].phase.Sent?
  }

  /** The claims under which a run has seen a request confirmed. */
  ghost function ConfirmedClaims(p: Policy, s: World, run: seq<Event>): set<nat>
    decreases |run|
  {
    if run == [] then {}
    else
      (if Confirms(s, run[0]) then {s.workers[run[0].worker].claim} else {})
      + ConfirmedClaims(p, Step(p, s, run[0]), run[1..])
  }

  /** Outcomes about to be recorded, and recorded, as published belong to confirmed claims. */
  predicate AnswersKept(s: World, seen: set<nat>) {
    && (s.post.status == Published ==> s.post.claim in seen)
    && (forall w :: w in s.workers && s.workers[w].phase.Confirming? ==> s.workers[w].claim in seen)
  }

  lemma ActionKeepsAnswers(s: World, w: WorkerId, a: Action, seen: set<nat>)
    requires Sound(s) && AnswersKept(s, seen) && w in s.workers
    ensures AnswersKept(Step(SAFE, s, Act(w, a)), if Confirms(s, Act(w, a)) then seen + {s.workers[w].claim} else seen)
  {
    assert WorkerSound(s, s.workers[w]);
    match a
    case Claim =>
    case Check =>
    case Stop(_) =>
    case Send =>
    case Answer(_, _) =>
    case Record(_) =>
    case Restore =>
    case Crash =>
  }

  lemma StepKeepsAnswers(s: World, e: Event, seen: set<nat>)
    requires Sound(s) && AnswersKept(s, seen)
    ensures AnswersKept(Step(SAFE, s, e), if Confirms(s, e) then seen + {s.workers[e.worker].claim} else seen)
  {
    if e.Act? && e.worker in s.workers { ActionKeepsAnswers(s, e.worker, e.action, seen); }
  }

  lemma {:induction false} RunKeepsAnswers(p: Policy, s: World, run: seq<Event>, seen: set<nat>)
    requires Guarded(p) && Sound(s) && (p.detached ==> NothingToRestore(s)) && AnswersKept(s, seen)
    ensures AnswersKept(Follow(p, s, run), seen + ConfirmedClaims(p, s, run))
    decreases |run|
  {
    if run != [] {
      StepStaysSound(s, run[0]);
      StepKeepsAnswers(s, run[0], seen);
      GuardedStepIsSafe(p, s, run[0]);
      if p.detached { DetachedNeverRestores(p, s, run[0]); }
      var now := if Confirms(s, run[0]) then seen + {s.workers[run[0].worker].claim} else seen;
      assert AnswersKept(Step(p, s, run[0]), now);
      RunKeepsAnswers(p, Step(p, s, run[0]), run[1..], now);
      assert now + ConfirmedClaims(p, Step(p, s, run[0]), run[1..]) == seen + ConfirmedClaims(p, s, run);
    }
  }

  ghost predicate PublishedWasConfirmed(p: Policy, s: World, run: seq<Event>) {
    var t := Follow(p, s, run);
    t.post.status == Published ==> t.post.claim in ConfirmedClaims(p, s, run)
  }

  lemma {:induction false} ConfirmedJoin(p: Policy, s: World, a: seq<Event>, b: seq<Event>)
    ensures ConfirmedClaims(p, s, a + b) == ConfirmedClaims(p, s, a) + ConfirmedClaims(p, Follow(p, s, a), b)
    decreases |a|
  {
    if a == [] {
      assert a + b == b;
    } else {
      assert (a + b)[1..] == a[1..] + b;
      ConfirmedJoin(p, Step(p, s, a[0]), a[1..], b);
    }
  }

  lemma {:induction false} NoAnswersConfirmNothing(p: Policy, s: World, run: seq<Event>)
    requires forall i :: 0 <= i < |run| ==> !(run[i].Act? && run[i].action.Answer?)
    ensures ConfirmedClaims(p, s, run) == {}
    decreases |run|
  {
    if run != [] { NoAnswersConfirmNothing(p, Step(p, s, run[0]), run[1..]); }
  }

  /** A worker that checks, sends, is confirmed and records its outcome. */
  function Publication(w: WorkerId): seq<Event> {
    [Act(w, Check), Act(w, Send), Act(w, Answer(true, Other))] + [Act(w, Record(true))]
  }

  /** A worker that has lost the post records its outcome on a later claim. */
  lemma LoserPublishes(p: Policy, s: World, w: WorkerId)
    requires w in s.workers && s.workers[w].phase.Holding? && InTime(p, s, s.workers[w])
    requires s.post.status == Publishing && s.post.review == Approved
    ensures var t := Follow(p, s, Publication(w)); t.post == MarkedPublished(s.post, s.now)
    ensures ConfirmedClaims(p, s, Publication(w)) == {s.workers[w].claim}
  {
    var k := s.workers[w];
    var found := Checked(Finding(s.post.content, s.post.review, s.post.claim, s.now));
    var checked := Step(p, s, Act(w, Check));
    assert checked == Moved(s, w, k, found);
    var sent := Step(p, checked, Act(w, Send));
    assert sent.workers == s.workers[w := k.(phase := Sent)];
    var confirmed := Step(p, sent, Act(w, Answer(true, Other)));
    assert confirmed == sent.(workers := s.workers[w := k.(phase := Confirming)]);
    FollowThree(p, s, Act(w, Check), Act(w, Send), Act(w, Answer(true, Other)), [Act(w, Record(true))]);
    FollowFirst(p, confirmed, Act(w, Record(true)), []);
    assert [Act(w, Record(true))] + [] == [Act(w, Record(true))];
    ConfirmedOne(p, s, w, checked, sent, confirmed);
  }

  lemma ConfirmedOne(p: Policy, s: World, w: WorkerId, checked: World, sent: World, confirmed: World)
    requires checked == Step(p, s, Act(w, Check)) && sent == Step(p, checked, Act(w, Send))
    requires confirmed == Step(p, sent, Act(w, Answer(true, Other)))
    requires w in sent.workers && sent.workers[w].phase.Sent?
    ensures ConfirmedClaims(p, s, Publication(w)) == {sent.workers[w].claim}
  {
    var run := Publication(w);
    assert run[1..] == [Act(w, Send), Act(w, Answer(true, Other)), Act(w, Record(true))];
    assert run[1..][1..] == [Act(w, Answer(true, Other)), Act(w, Record(true))];
    assert run[1..][1..][1..] == [Act(w, Record(true))];
    NoAnswersConfirmNothing(p, confirmed, run[1..][1..][1..]);
    assert ConfirmedClaims(p, sent, run[1..][1..]) == {sent.workers[w].claim};
    assert ConfirmedClaims(p, checked, run[1..]) == {sent.workers[w].claim};
  }

  lemma Misattributed(p: Policy, before: seq<Event>, s: World, w: WorkerId)
    requires Follow(p, Start(true), before) == s
    requires forall i :: 0 <= i < |before| ==> !(before[i].Act? && before[i].action.Answer?)
    requires w in s.workers && s.workers[w].phase.Holding? && InTime(p, s, s.workers[w])
    requires s.post.status == Publishing && s.post.review == Approved && s.workers[w].claim != s.post.claim
    ensures !PublishedWasConfirmed(p, Start(true), before + Publication(w))
  {
    RunsJoin(p, Start(true), before, Publication(w));
    ConfirmedJoin(p, Start(true), before, Publication(w));
    NoAnswersConfirmNothing(p, Start(true), before);
    LoserPublishes(p, s, w);
  }

  /** The successor's claim is recorded as published although only the overtaken worker's
      request was confirmed. */
  lemma OvertakenPublishes(p: Policy)
    requires !p.manualBounded
    ensures !PublishedWasConfirmed(p, Start(true), (ToRecovered() + ([Click(1)] + [Act(1, Claim)])) + Publication(0))
  {
    var before := ToRecovered() + ([Click(1)] + [Act(1, Claim)]);
    RunsJoin(p, Start(true), ToRecovered(), [Click(1)] + [Act(1, Claim)]);
    ToRecoveredReaches(p);
    SuccessorClaims(p);
    Misattributed(p, before, BEFORE_LATE_SEND, 0);
  }

  /** The same after a restore that took the post from worker 1, and a third claim. */
  const RECLAIMED := BEFORE_RESTORE.(
    post := Post(Publishing, None, 0, Approved, 3, 1), claims := 3,
    workers := BEFORE_RESTORE.workers[0 := TIMED.(phase := Finished)][2 := Worker(Manual, Approved, 3, 1, 0, Holding)])

  lemma ReclaimedReaches(p: Policy)
    requires !p.restoreFenced
    ensures Follow(p, BEFORE_RESTORE, [Act(0, Restore), Click(2), Act(2, Claim)]) == RECLAIMED
  {
    var restored := BEFORE_RESTORE.(
      post := Post(Scheduled, Some(1), 0, Approved, 2, 1),
      workers := BEFORE_RESTORE.workers[0 := TIMED.(phase := Finished)]);
    var clicked := At(restored, 2, Worker(Manual, Approved, 0, 0, 0, Asked));
    assert Step(p, BEFORE_RESTORE, Act(0, Restore)) == restored;
    assert Step(p, restored, Click(2)) == clicked;
    assert clicked.workers[2 := Worker(Manual, Approved, 3, 1, 0, Holding)] == RECLAIMED.workers;
    Leg(p, BEFORE_RESTORE, Act(0, Restore), Click(2), Act(2, Claim), RECLAIMED);
  }

  lemma RobbedPublishes(p: Policy)
    requires !p.restoreFenced && !p.detached
    ensures !PublishedWasConfirmed(
              p, Start(true), (ToRestore() + [Act(0, Restore), Click(2), Act(2, Claim)]) + Publication(1))
  {
    var before := ToRestore() + [Act(0, Restore), Click(2), Act(2, Claim)];
    RunsJoin(p, Start(true), ToRestore(), [Act(0, Restore), Click(2), Act(2, Claim)]);
    ToRestoreReaches(p);
    ReclaimedReaches(p);
    Misattributed(p, before, RECLAIMED, 1);
  }

  ghost predicate AlwaysConfirmed(p: Policy) {
    forall required, run :: PublishedWasConfirmed(p, Start(required), run)
  }

  /** Main result: over every interleaving a post is published only if MAX confirmed a request
      sent under the claim it was published from, under exactly the same conditions. */
  lemma PublishedWasConfirmedExactly(p: Policy)
    ensures AlwaysConfirmed(p) <==> p.manualBounded && (p.restoreFenced || p.detached)
    ensures AlwaysConfirmed(AS_WRITTEN)
  {
    if Guarded(p) {
      forall required, run ensures PublishedWasConfirmed(p, Start(required), run) {
        RunKeepsAnswers(p, Start(required), run, {});
      }
    } else if p.manualBounded {
      RobbedPublishes(p);
    } else {
      OvertakenPublishes(p);
    }
    forall required, run ensures PublishedWasConfirmed(AS_WRITTEN, Start(required), run) {
      RunKeepsAnswers(AS_WRITTEN, Start(required), run, {});
    }
  }

  predicate Rests(run: seq<Event>, w: WorkerId) {
    forall i :: 0 <= i < |run| ==> !(run[i].Act? && run[i].worker == w)
  }

  lemma ActsAlone(p: Policy, s: World, v: WorkerId, a: Action, w: WorkerId)
    requires v in s.workers && w in s.workers && v != w
    ensures w in Step(p, s, Act(v, a)).workers && Step(p, s, Act(v, a)).workers[w] == s.workers[w]
  {
    match a
    case Claim =>
    case Check =>
    case Stop(_) =>
    case Send =>
    case Answer(_, _) =>
    case Record(_) =>
    case Restore =>
    case Crash =>
  }

  lemma OthersLeaveWorker(p: Policy, s: World, e: Event, w: WorkerId)
    requires w in s.workers && !(e.Act? && e.worker == w)
    ensures w in Step(p, s, e).workers && Step(p, s, e).workers[w] == s.workers[w]
  {
    if e.Act? && e.worker in s.workers { ActsAlone(p, s, e.worker, e.action, w); }
  }

  lemma {:induction false} RestingWorkerStays(p: Policy, s: World, run: seq<Event>, w: WorkerId)
    requires w in s.workers && Rests(run, w)
    ensures w in Follow(p, s, run).workers && Follow(p, s, run).workers[w] == s.workers[w]
    decreases |run|
  {
    if run != [] {
      OthersLeaveWorker(p, s, run[0], w);
      RestingWorkerStays(p, Step(p, s, run[0]), run[1..], w);
    }
  }

  /** An answer recorded in time decides the post, whatever others did in between: a confirmed
      one leaves it published, any other one failed, off the calendar and with the claimed payload. */
  lemma AnswerDecides(p: Policy, s: World, w: WorkerId, confirmed: bool, cause: Cause, more: seq<Event>)
    requires Guarded(p) && Sound(s) && (p.detached ==> NothingToRestore(s))
    requires w in s.workers && s.workers[w].phase.Sent? && Rests(more, w)
    requires Follow(p, Step(p, s, Act(w, Answer(confirmed, cause))), more).now <= s.workers[w].claimedAt + WORKER_LIMIT
    ensures var t := Follow(p, Step(p, s, Act(w, Answer(confirmed, cause))), more);
            var post := Step(p, t, Act(w, Record(true))).post;
            && post.status == (if confirmed then Published else Status.Failed)
            && post.slot == None && post.claim == s.workers[w].claim && post.content == s.workers[w].content
  {
    var e := Act(w, Answer(confirmed, cause));
    var answered := Step(p, s, e);
    StepStaysSound(s, e);
    GuardedStepIsSafe(p, s, e);
    if p.detached { DetachedNeverRestores(p, s, e); }
    RestingWorkerStays(p, answered, more, w);
    SafeguardsSuffice(p, answered, more);
    var t := Follow(p, answered, more);
    assert WorkerSound(t, t.workers[w]);
  }

  // ---------- what was sent had been reviewed ----------

  /** A reviewer approves the post as it stands. */
  predicate Approves(s: World, e: Event) { e == Decide(true) && s.post.review == InReview }

  /** The payloads that a run has seen approved. */
  ghost function ApprovedPayloads(p: Policy, s: World, run: seq<Event>): set<Content>
    decreases |run|
  {
    if run == [] then {}
    else
      (if Approves(s, run[0]) then {s.post.content} else {}) + ApprovedPayloads(p, Step(p, s, run[0]), run[1..])
  }

  /** Approvals stored, found and relied on are approvals of the payload they come with. */
  predicate ReviewsKept(s: World, seen: set<Content>) {
    && (s.post.review == Approved ==> s.post.content in seen)
    && (forall w :: w in s.workers && s.workers[w].phase.Checked? && s.workers[w].phase.found.review == Approved ==>
          s.workers[w].phase.found.content in seen)
    && (s.required ==> forall i :: 0 <= i < |s.log| ==> s.log[i].content in seen)
  }

  lemma ActionKeepsReviews(s: World, w: WorkerId, a: Action, seen: set<Content>)
    requires Sound(s) && ReviewsKept(s, seen) && w in s.workers
    ensures ReviewsKept(Step(SAFE, s, Act(w, a)), seen)
  {
    assert WorkerSound(s, s.workers[w]);
    match a
    case Claim =>
    case Check =>
    case Stop(_) =>
    case Send =>
    case Answer(_, _) =>
    case Record(_) =>
    case Restore =>
    case Crash =>
  }

  lemma StepKeepsReviews(s: World, e: Event, seen: set<Content>)
    requires Sound(s) && ReviewsKept(s, seen)
    ensures ReviewsKept(Step(SAFE, s, e), if Approves(s, e) then seen + {s.post.content} else seen)
  {
    if e.Act? && e.worker in s.workers { ActionKeepsReviews(s, e.worker, e.action, seen); }
  }

  lemma {:induction false} RunKeepsReviews(p: Policy, s: World, run: seq<Event>, seen: set<Content>)
    requires Guarded(p) && Sound(s) && (p.detached ==> NothingToRestore(s)) && ReviewsKept(s, seen)
    ensures ReviewsKept(Follow(p, s, run), seen + ApprovedPayloads(p, s, run))
    decreases |run|
  {
    if run != [] {
      StepStaysSound(s, run[0]);
      StepKeepsReviews(s, run[0], seen);
      GuardedStepIsSafe(p, s, run[0]);
      if p.detached { DetachedNeverRestores(p, s, run[0]); }
      var now := if Approves(s, run[0]) then seen + {s.post.content} else seen;
      assert ReviewsKept(Step(p, s, run[0]), now);
      RunKeepsReviews(p, Step(p, s, run[0]), run[1..], now);
      assert now + ApprovedPayloads(p, Step(p, s, run[0]), run[1..]) == seen + ApprovedPayloads(p, s, run);
    }
  }

  /** Everything sent is a payload that a reviewer approved as it stood. */
  ghost predicate SentWasReviewed(p: Policy, run: seq<Event>) {
    forall h :: h in Follow(p, Start(true), run).log ==> h.content in ApprovedPayloads(p, Start(true), run)
  }

  ghost predicate AlwaysReviewed(p: Policy) {
    forall run :: SentWasReviewed(p, run)
  }

  /** A run from one world to another, and the payloads approved on the way. */
  ghost predicate Walks(p: Policy, s: World, run: seq<Event>, t: World, approved: set<Content>) {
    Follow(p, s, run) == t && ApprovedPayloads(p, s, run) == approved
  }

  lemma {:induction false} PayloadsJoin(p: Policy, s: World, a: seq<Event>, b: seq<Event>)
    ensures ApprovedPayloads(p, s, a + b) == ApprovedPayloads(p, s, a) + ApprovedPayloads(p, Follow(p, s, a), b)
    decreases |a|
  {
    if a == [] {
      assert a + b == b;
    } else {
      assert (a + b)[1..] == a[1..] + b;
      PayloadsJoin(p, Step(p, s, a[0]), a[1..], b);
    }
  }

  lemma WalkOn(p: Policy, s: World, a: seq<Event>, t: World, x: set<Content>, b: seq<Event>, u: World, y: set<Content>)
    requires Walks(p, s, a, t, x) && Walks(p, t, b, u, y)
    ensures Walks(p, s, a + b, u, x + y)
  {
    RunsJoin(p, s, a, b);
    PayloadsJoin(p, s, a, b);
  }

  function PayloadOf(s: World, e: Event): set<Content> { if Approves(s, e) then {s.post.content} else {} }

  lemma WalkThree(p: Policy, s: World, e: Event, f: Event, g: Event, t: World, approved: set<Content>)
    requires Step(p, Step(p, Step(p, s, e), f), g) == t
    requires approved == PayloadOf(s, e) + PayloadOf(Step(p, s, e), f) + PayloadOf(Step(p, Step(p, s, e), f), g)
    ensures Walks(p, s, [e, f, g], t, approved)
  {
    Leg(p, s, e, f, g, t);
    var run := [e, f, g];
    assert run[1..] == [f, g] && run[1..][1..] == [g] && run[1..][1..][1..] == [];
    assert ApprovedPayloads(p, t, []) == {};
    assert ApprovedPayloads(p, Step(p, Step(p, s, e), f), run[1..][1..]) == PayloadOf(Step(p, Step(p, s, e), f), g);
  }

  lemma UnreviewedIsSent(p: Policy, run: seq<Event>, t: World, h: Handover)
    requires Walks(p, Start(true), run, t, {0, 7}) && t.log == [h] && h.content == 5
    ensures !SentWasReviewed(p, run)
  {
    assert t.log[0] == h;
  }

  const EDITED := Start(true).(
    post := Post(Publishing, None, 5, Unreviewed, 1, 0), now := STALE + 1, claims := 1,
    workers := map[0 := Worker(Manual, Approved, 1, 0, 5, Holding)])

  const REPLACED := EDITED.(post := Post(Status.Failed, None, 7, InReview, 1, STALE + 1))

  const REPLACED_SENT := REPLACED.(
    post := Post(Status.Failed, None, 7, Approved, 1, STALE + 1), handed := 1,
    log := [Handover(5, 1, 0, Approved, Finding(7, Approved, 1, STALE + 1))],
    workers := map[0 := Worker(Manual, Approved, 1, 0, 5, Sent)])

  /** A payload edited in between click and claim is sent by a worker overtaken by recovery, on the
      approval of its successor. */
  lemma OvertakenSendsUnreviewed(p: Policy) returns (run: seq<Event>)
    requires !p.manualBounded
    ensures !SentWasReviewed(p, run)
  {
    var clicked := Start(true).(
      post := Post(Draft, None, 0, Approved, 0, 0), workers := map[0 := Worker(Manual, Approved, 0, 0, 0, Asked)]);
    WalkThree(p, Start(true), Submit, Decide(true), Click(0), clicked, {0});
    WalkThree(p, clicked, Edit(5), Act(0, Claim), Tick(STALE + 1), EDITED, {});
    WalkThree(p, EDITED, Recover, Edit(7), Submit, REPLACED, {});
    LateSendOfEdited(p);
    run := [Submit, Decide(true), Click(0)] + [Edit(5), Act(0, Claim), Tick(STALE + 1)];
    WalkOn(p, Start(true), [Submit, Decide(true), Click(0)], clicked, {0},
           [Edit(5), Act(0, Claim), Tick(STALE + 1)], EDITED, {});
    WalkOn(p, Start(true), run, EDITED, {0} + {}, [Recover, Edit(7), Submit], REPLACED, {});
    run := run + [Recover, Edit(7), Submit];
    WalkOn(p, Start(true), run, REPLACED, {0} + {} + {},
           [Decide(true), Act(0, Check), Act(0, Send)], REPLACED_SENT, {7});
    run := run + [Decide(true), Act(0, Check), Act(0, Send)];
    assert {0} + {} + {} + {7} == {0, 7};
    UnreviewedIsSent(p, run, REPLACED_SENT, REPLACED_SENT.log[0]);
  }

  lemma LateSendOfEdited(p: Policy)
    requires !p.manualBounded
    ensures Walks(p, REPLACED, [Decide(true), Act(0, Check), Act(0, Send)], REPLACED_SENT, {7})
  {
    var decided := Step(p, REPLACED, Decide(true));
    var checked := Step(p, decided, Act(0, Check));
    assert checked.workers ==
           map[0 := Worker(Manual, Approved, 1, 0, 5, Checked(Finding(7, Approved, 1, STALE + 1)))];
    WalkThree(p, REPLACED, Decide(true), Act(0, Check), Act(0, Send), REPLACED_SENT, {7});
  }

  /** Worker 1 holds payload 5; worker 0 has restored the slot. */
  const ROBBED := Start(true).(
    post := Post(Scheduled, Some(1), 5, Unreviewed, 2, 1), now := 1, claims := 2,
    workers := map[0 := TIMED.(phase := Finished), 1 := Worker(Manual, Approved, 2, 1, 5, Holding)])

  const ROBBED_SENT := ROBBED.(
    post := Post(Scheduled, Some(1), 7, Approved, 2, 1), handed := 1,
    log := [Handover(5, 2, 1, Approved, Finding(7, Approved, 2, 1))],
    workers := ROBBED.workers[1 := Worker(Manual, Approved, 2, 1, 5, Sent)])

  lemma RobbedWalk(p: Policy) returns (run: seq<Event>)
    requires !p.restoreFenced && !p.detached
    ensures Walks(p, Start(true), run, ROBBED, {0})
  {
    var scheduled := Start(true).(post := Post(Scheduled, Some(1), 0, Approved, 0, 0));
    var clicked := CLAIMED_FROM_SLOT.(
      post := Post(Status.Failed, None, 0, Approved, 1, 1),
      workers := map[0 := TIMED.(phase := Restoring), 1 := Worker(Manual, Approved, 0, 0, 0, Asked)]);
    WalkThree(p, Start(true), Submit, Decide(true), Schedule(1), scheduled, {0});
    WalkThree(p, scheduled, Tick(1), Pick(0, 1), Act(0, Claim), CLAIMED_FROM_SLOT, {});
    WalkThree(p, CLAIMED_FROM_SLOT, Act(0, Stop(Cancelled)), Act(0, Record(true)), Click(1), clicked, {});
    RobbedClaim(p, clicked);
    run := [Submit, Decide(true), Schedule(1)] + [Tick(1), Pick(0, 1), Act(0, Claim)];
    WalkOn(p, Start(true), [Submit, Decide(true), Schedule(1)], scheduled, {0},
           [Tick(1), Pick(0, 1), Act(0, Claim)], CLAIMED_FROM_SLOT, {});
    WalkOn(p, Start(true), run, CLAIMED_FROM_SLOT, {0} + {},
           [Act(0, Stop(Cancelled)), Act(0, Record(true)), Click(1)], clicked, {});
    run := run + [Act(0, Stop(Cancelled)), Act(0, Record(true)), Click(1)];
    WalkOn(p, Start(true), run, clicked, {0} + {} + {}, [Edit(5), Act(1, Claim), Act(0, Restore)], ROBBED, {});
    run := run + [Edit(5), Act(1, Claim), Act(0, Restore)];
    assert {0} + {} + {} + {} == {0};
  }

  lemma RobbedClaim(p: Policy, clicked: World)
    requires !p.restoreFenced
    requires clicked == CLAIMED_FROM_SLOT.(
      post := Post(Status.Failed, None, 0, Approved, 1, 1),
      workers := map[0 := TIMED.(phase := Restoring), 1 := Worker(Manual, Approved, 0, 0, 0, Asked)])
    ensures Walks(p, clicked, [Edit(5), Act(1, Claim), Act(0, Restore)], ROBBED, {})
  {
    var edited := Step(p, clicked, Edit(5));
    var claimed := Step(p, edited, Act(1, Claim));
    assert claimed.workers ==
           map[0 := TIMED.(phase := Restoring), 1 := Worker(Manual, Approved, 2, 1, 5, Holding)];
    WalkThree(p, clicked, Edit(5), Act(1, Claim), Act(0, Restore), ROBBED, {});
  }

  lemma RobbedSend(p: Policy)
    ensures Walks(p, ROBBED, [Edit(7), Submit, Decide(true)] + [Tick(0), Act(1, Check), Act(1, Send)], ROBBED_SENT, {7})
  {
    var decided := ROBBED.(post := Post(Scheduled, Some(1), 7, Approved, 2, 1));
    WalkThree(p, ROBBED, Edit(7), Submit, Decide(true), decided, {7});
    var checked := Step(p, decided, Act(1, Check));
    assert checked.workers ==
           ROBBED.workers[1 := Worker(Manual, Approved, 2, 1, 5, Checked(Finding(7, Approved, 2, 1)))];
    WalkThree(p, decided, Tick(0), Act(1, Check), Act(1, Send), ROBBED_SENT, {});
    WalkOn(p, ROBBED, [Edit(7), Submit, Decide(true)], decided, {7},
           [Tick(0), Act(1, Check), Act(1, Send)], ROBBED_SENT, {});
  }

  /** The same by a worker that lost the post to a restore. */
  lemma RobbedSendsUnreviewed(p: Policy) returns (run: seq<Event>)
    requires !p.restoreFenced && !p.detached
    ensures !SentWasReviewed(p, run)
  {
    run := RobbedWalk(p);
    RobbedSend(p);
    var tail := [Edit(7), Submit, Decide(true)] + [Tick(0), Act(1, Check), Act(1, Send)];
    WalkOn(p, Start(true), run, ROBBED, {0}, tail, ROBBED_SENT, {7});
    run := run + tail;
    assert {0} + {7} == {0, 7};
    UnreviewedIsSent(p, run, ROBBED_SENT, ROBBED_SENT.log[0]);
  }

  lemma {:induction false} RequiredStays(p: Policy, s: World, run: seq<Event>)
    ensures Follow(p, s, run).required == s.required
    decreases |run|
  {
    if run != [] {
      StepKeepsRequired(p, s, run[0]);
      RequiredStays(p, Step(p, s, run[0]), run[1..]);
    }
  }

  lemma StepKeepsRequired(p: Policy, s: World, e: Event)
    ensures Step(p, s, e).required == s.required
  {
  }

  lemma GuardedRunsAreReviewed(p: Policy, run: seq<Event>)
    requires Guarded(p)
    ensures SentWasReviewed(p, run)
  {
    RequiredStays(p, Start(true), run);
    RunKeepsReviews(p, Start(true), run, {});
    forall h | h in Follow(p, Start(true), run).log ensures h.content in ApprovedPayloads(p, Start(true), run) {
      var i :| 0 <= i < |Follow(p, Start(true), run).log| && Follow(p, Start(true), run).log[i] == h;
    }
  }

  /** Main result: where approval is required, over every interleaving every payload sent is one a
      reviewer approved as it stood, under exactly the same conditions. */
  lemma SentWasReviewedExactly(p: Policy)
    ensures AlwaysReviewed(p) <==> p.manualBounded && (p.restoreFenced || p.detached)
    ensures AlwaysReviewed(AS_WRITTEN)
  {
    if Guarded(p) {
      forall run ensures SentWasReviewed(p, run) { GuardedRunsAreReviewed(p, run); }
    } else if p.manualBounded {
      var run := RobbedSendsUnreviewed(p);
    } else {
      var run := OvertakenSendsUnreviewed(p);
    }
    forall run ensures SentWasReviewed(AS_WRITTEN, run) { GuardedRunsAreReviewed(AS_WRITTEN, run); }
  }

  // ---------- slots, recovery and published posts ----------

  /** A post has a slot exactly while it is on the calendar. */
  lemma {:induction false} OnCalendarExactly(p: Policy, s: World, run: seq<Event>)
    requires s.post.status == Scheduled <==> s.post.slot.Some?
    ensures Follow(p, s, run).post.status == Scheduled <==> Follow(p, s, run).post.slot.Some?
    decreases |run|
  {
    if run != [] {
      StepStaysOnCalendar(p, s, run[0]);
      OnCalendarExactly(p, Step(p, s, run[0]), run[1..]);
    }
  }

  lemma StepStaysOnCalendar(p: Policy, s: World, e: Event)
    requires s.post.status == Scheduled <==> s.post.slot.Some?
    ensures Step(p, s, e).post.status == Scheduled <==> Step(p, s, e).post.slot.Some?
  {
  }

  ghost predicate CyclesArePast(s: World) {
    forall w :: w in s.workers && s.workers[w].kind.Timed? ==> s.workers[w].kind.cycle <= s.now
  }

  lemma ActionKeepsCycle(p: Policy, s: World, w: WorkerId, a: Action)
    requires CyclesArePast(s) && w in s.workers
    ensures CyclesArePast(Step(p, s, Act(w, a)))
  {
    var t := Step(p, s, Act(w, a));
    assert t.now == s.now && t.workers[w].kind == s.workers[w].kind;
    forall v | v in t.workers && v != w ensures v in s.workers && t.workers[v] == s.workers[v] {
      if v in s.workers { OthersLeaveWorker(p, s, Act(w, a), v); }
    }
  }

  lemma {:induction false} RunKeepsCycles(p: Policy, s: World, run: seq<Event>)
    requires CyclesArePast(s)
    ensures CyclesArePast(Follow(p, s, run))
    decreases |run|
  {
    if run != [] {
      if run[0].Act? && run[0].worker in s.workers { ActionKeepsCycle(p, s, run[0].worker, run[0].action); }
      RunKeepsCycles(p, Step(p, s, run[0]), run[1..]);
    }
  }

  /** After any run, a scheduled publication claims the post only once its slot has come. */
  lemma NeverBeforeItsSlot(p: Policy, required: bool, run: seq<Event>, w: WorkerId)
    requires var s := Follow(p, Start(required), run);
             && w in s.workers && s.workers[w].kind.Timed?
             && Step(p, s, Act(w, Claim)).claims != s.claims
    ensures var s := Follow(p, Start(required), run);
            s.post.status == Scheduled && s.post.slot.Some? && s.post.slot.value <= s.now
  {
    RunKeepsCycles(p, Start(required), run);
  }

  /** A person may set a slot exactly in the future, on a post that is neither being published nor
      published, and where approval is required on an approved one. */
  lemma SchedulesExactly(p: Policy, s: World, at: int)
    ensures var t := Step(p, s, Schedule(at));
            (t.post == s.post.(status := Scheduled, slot := Some(at), updated := s.now) && t.handed == 0) <==>
              || (&& s.post.status != Publishing && s.post.status != Published && at > s.now
                  && (s.required ==> s.post.review == Approved))
              || (s.post.status == Scheduled && s.post.slot == Some(at) && s.post.updated == s.now && s.handed == 0)
  {
  }

  /** Stale recovery fails exactly a publication not written to for more than ten minutes. */
  lemma RecoversExactly(p: Policy, s: World)
    ensures Step(p, s, Recover).post ==
            if s.post.status == Publishing && s.now - s.post.updated > 600
            then s.post.(status := Status.Failed, slot := None, updated := s.now) else s.post
  {
  }

  /** A bounded worker does nothing to its claim later than three minutes and ten seconds after it. */
  lemma LateWorkersStop(p: Policy, s: World, w: WorkerId, a: Action)
    requires w in s.workers && (p.manualBounded || s.workers[w].kind.Timed?)
    requires s.now > s.workers[w].claimedAt + 190 && (a.Check? || a.Send? || a.Record?)
    ensures Step(p, s, Act(w, a)) == s
  {
  }

  /** Every write stamps the post with its time. */
  lemma WritesAreStamped(p: Policy, s: World, e: Event)
    ensures Step(p, s, e).post != s.post ==> Step(p, s, e).post.updated == s.now
  {
  }

  lemma StepStaysPublished(p: Policy, s: World, e: Event)
    requires s.post.status == Published
    ensures var t := Step(p, s, e).post;
            t.status == Published && t.content == s.post.content && t.claim == s.post.claim && t.slot == s.post.slot
  {
  }

  /** A published post stays published with its payload, whatever workers and people do. */
  lemma {:induction false} PublishedIsFinal(p: Policy, s: World, run: seq<Event>)
    requires s.post.status == Published
    ensures var t := Follow(p, s, run).post;
            t.status == Published && t.content == s.post.content && t.claim == s.post.claim && t.slot == s.post.slot
    decreases |run|
  {
    if run != [] {
      StepStaysPublished(p, s, run[0]);
      PublishedIsFinal(p, Step(p, s, run[0]), run[1..]);
    }
  }

  // ---------- a worker nobody interferes with ----------

  function CourseOf(w: WorkerId, course: Course): seq<Event> {
    match course
    case StopsBefore(cause) => [Act(w, Stop(cause))]
    case Confirmed => [Act(w, Send)] + [Act(w, Answer(true, Other))]
    case Rejected(cause) => [Act(w, Send)] + [Act(w, Answer(false, cause))]
  }

  function Uninterrupted(w: WorkerId, course: Course): seq<Event> {
    [Act(w, Check)] + (CourseOf(w, course) + [Act(w, Record(true))])
  }

  /** A scheduled publication that is detached is not cancelled. */
  predicate CanTake(p: Policy, kind: Kind, course: Course) {
    course == StopsBefore(Cancelled) ==> kind.Manual? || !p.detached
  }

  lemma OneEvent(p: Policy, s: World, e: Event)
    ensures Follow(p, s, [e]) == Step(p, s, e)
  {
    FollowFirst(p, s, e, []);
    assert [e] + [] == [e];
  }

  lemma TwoEvents(p: Policy, s: World, e: Event, f: Event)
    ensures Follow(p, s, [e] + [f]) == Step(p, Step(p, s, e), f)
  {
    FollowFirst(p, s, e, [f]);
    OneEvent(p, Step(p, s, e), f);
  }

  /** The course of a checked worker: its phase at the end, the post untouched. */
  lemma CourseEnds(p: Policy, s: World, w: WorkerId, course: Course)
    requires w in s.workers && s.workers[w].phase.Checked? && InTime(p, s, s.workers[w])
    requires CanTake(p, s.workers[w].kind, course)
    ensures var t := Follow(p, s, CourseOf(w, course));
            && t.post == s.post && t.now == s.now && |t.log| == |s.log| + (if course.StopsBefore? then 0 else 1)
            && w in t.workers && t.workers[w] == s.workers[w].(
              phase := if course.Confirmed? then Confirming else Failing(course.cause, course.Rejected?))
  {
    match course
    case StopsBefore(cause) => OneEvent(p, s, Act(w, Stop(cause)));
    case Confirmed => TwoEvents(p, s, Act(w, Send), Act(w, Answer(true, Other)));
    case Rejected(cause) => TwoEvents(p, s, Act(w, Send), Act(w, Answer(false, cause)));
  }

  lemma NothingMoves(p: Policy, s: World, w: WorkerId, course: Course)
    requires w in s.workers && s.workers[w].phase == Failing(Other, false)
    ensures Follow(p, s, CourseOf(w, course)) == s
  {
    match course
    case StopsBefore(cause) => OneEvent(p, s, Act(w, Stop(cause)));
    case Confirmed => TwoEvents(p, s, Act(w, Send), Act(w, Answer(true, Other)));
    case Rejected(cause) => TwoEvents(p, s, Act(w, Send), Act(w, Answer(false, cause)));
  }

  /** From the claim on, the steps of a worker left alone do to the post what PublishClaimedPost
      does, and hand exactly one request to MAX when it sends one. */
  lemma UninterruptedPublishes(p: Policy, s: World, w: WorkerId, course: Course)
    requires w in s.workers && s.workers[w].phase.Holding? && s.workers[w].claimedAt == s.now
    requires CanTake(p, s.workers[w].kind, course)
    ensures var t := Follow(p, s, Uninterrupted(w, course));
            var sent := MayPublish(s.required, s.post) && !course.StopsBefore?;
            && t.post == Concluded(s.required, s.post, course, s.now) && t.now == s.now
            && |t.log| == |s.log| + (if sent then 1 else 0)
            && w in t.workers
            && t.workers[w] == s.workers[w].(
                 phase := if && MayPublish(s.required, s.post) && course == StopsBefore(Cancelled)
                             && s.workers[w].kind.Timed? && s.workers[w].kind.slot.Some?
                          then Restoring else Finished)
  {
    var checked := Step(p, s, Act(w, Check));
    if MayPublish(s.required, s.post) {
      CourseEnds(p, checked, w, course);
    } else {
      NothingMoves(p, checked, w, course);
    }
    var done := Follow(p, checked, CourseOf(w, course));
    FollowFirst(p, s, Act(w, Check), CourseOf(w, course) + [Act(w, Record(true))]);
    RunsJoin(p, checked, CourseOf(w, course), [Act(w, Record(true))]);
    OneEvent(p, done, Act(w, Record(true)));
  }

  lemma LateStepsChangeNothing(p: Policy, s: World, w: WorkerId, course: Course)
    requires w in s.workers ==> s.workers[w].phase.Finished?
    ensures Follow(p, s, Uninterrupted(w, course)) == s
  {
    FollowFirst(p, s, Act(w, Check), CourseOf(w, course) + [Act(w, Record(true))]);
    match course {
      case StopsBefore(cause) => OneEvent(p, s, Act(w, Stop(cause)));
      case Confirmed => TwoEvents(p, s, Act(w, Send), Act(w, Answer(true, Other)));
      case Rejected(cause) => TwoEvents(p, s, Act(w, Send), Act(w, Answer(false, cause)));
    }
    RunsJoin(p, s, CourseOf(w, course), [Act(w, Record(true))]);
    OneEvent(p, s, Act(w, Record(true)));
  }

  /** A manual publication nobody interferes with does what PublishPost does. */
  lemma ManualRunIsPublishPost(p: Policy, s: World, w: WorkerId, course: Course)
    requires w !in s.workers
    ensures Follow(p, s, ([Click(w)] + [Act(w, Claim)]) + Uninterrupted(w, course)).post ==
            PublishedByHand(s.required, s.post, s.claims + 1, course, s.now)
  {
    RunsJoin(p, s, [Click(w)] + [Act(w, Claim)], Uninterrupted(w, course));
    TwoEvents(p, s, Click(w), Act(w, Claim));
    var claimed := Step(p, Step(p, s, Click(w)), Act(w, Claim));
    if MayPublish(s.required, s.post) && ManuallyClaimable(s.post) {
      UninterruptedPublishes(p, claimed, w, course);
    } else {
      LateStepsChangeNothing(p, claimed, w, course);
    }
  }

  lemma UnapprovedIsTakenOff(p: Policy, s: World, w: WorkerId, course: Course)
    requires w in s.workers && s.workers[w].phase == Failing(Other, false) && s.workers[w].claimedAt == s.now
    ensures var t := Follow(p, s, Uninterrupted(w, course));
            t.post == MarkedFailed(s.post, s.now) && w in t.workers && t.workers[w].phase.Finished?
  {
    FollowFirst(p, s, Act(w, Check), CourseOf(w, course) + [Act(w, Record(true))]);
    NothingMoves(p, s, w, course);
    RunsJoin(p, s, CourseOf(w, course), [Act(w, Record(true))]);
    OneEvent(p, s, Act(w, Record(true)));
  }

  lemma PickedPublishes(p: Policy, s: World, w: WorkerId, cycle: int, course: Course)
    requires w in s.workers && s.workers[w] == Arriving(Timed(s.post.slot, cycle), s.post)
    requires CanTake(p, Timed(s.post.slot, cycle), course)
    ensures var done := Follow(p, Step(p, s, Act(w, Claim)), Uninterrupted(w, course));
            Step(p, done, Act(w, Restore)).post ==
            PublishedFromSlot(s.required, s.post, cycle, s.claims + 1, course, s.now)
  {
    var claimed := Step(p, s, Act(w, Claim));
    if !DueBy(s.post, cycle) {
      LateStepsChangeNothing(p, claimed, w, course);
    } else if MayPublish(s.required, s.post) {
      UninterruptedPublishes(p, claimed, w, course);
    } else {
      UnapprovedIsTakenOff(p, claimed, w, course);
    }
  }

  /** A scheduled publication nobody interferes with does what publishScheduledPost does. */
  lemma TimedRunIsPublishScheduledPost(p: Policy, s: World, w: WorkerId, cycle: int, course: Course)
    requires w !in s.workers && cycle <= s.now && CanTake(p, Timed(s.post.slot, cycle), course)
    ensures Follow(p, s, (([Pick(w, cycle)] + [Act(w, Claim)]) + Uninterrupted(w, course)) + [Act(w, Restore)]).post ==
            PublishedFromSlot(s.required, s.post, cycle, s.claims + 1, course, s.now)
  {
    var picked := Step(p, s, Pick(w, cycle));
    RunsJoin(p, s, ([Pick(w, cycle)] + [Act(w, Claim)]) + Uninterrupted(w, course), [Act(w, Restore)]);
    RunsJoin(p, s, [Pick(w, cycle)] + [Act(w, Claim)], Uninterrupted(w, course));
    TwoEvents(p, s, Pick(w, cycle), Act(w, Claim));
    OneEvent(p, Follow(p, Step(p, picked, Act(w, Claim)), Uninterrupted(w, course)), Act(w, Restore));
    PickedPublishes(p, picked, w, cycle, course);
  }

  ghost predicate AlwaysOneHandover(p: Policy) {
    forall required, run :: OneHandover(Follow(p, Start(required), run))
  }

  ghost predicate AlwaysApprovedContent(p: Policy) {
    forall required, run :: ApprovedContent(Follow(p, Start(required), run))
  }

  /** Main result: over every interleaving at most one request is handed to MAX per decision of
      a person, and nothing sent is on the calendar, exactly when manual publications are over
      before stale recovery can free the post, and either a restore checks its claim or
      scheduled publications are never cancelled. The code, called as it is, meets this. */
  lemma OneHandoverExactly(p: Policy)
    ensures AlwaysOneHandover(p) <==> p.manualBounded && (p.restoreFenced || p.detached)
    ensures AlwaysOneHandover(AS_WRITTEN)
  {
    if Guarded(p) {
      forall required, run ensures OneHandover(Follow(p, Start(required), run)) {
        SafeguardsSuffice(p, Start(required), run);
      }
    } else if p.manualBounded {
      UnfencedRestoreFails(p);
    } else {
      UnboundedManualFails(p);
    }
    forall required, run ensures OneHandover(Follow(AS_WRITTEN, Start(required), run)) {
      CodeKeepsGuarantees(required, run);
    }
  }

  /** Main result: what is sent is the claimed payload, found approved after the claim it is sent
      under and before it, under exactly the same conditions. */
  lemma ApprovedContentExactly(p: Policy)
    ensures AlwaysApprovedContent(p) <==> p.manualBounded && (p.restoreFenced || p.detached)
    ensures AlwaysApprovedContent(AS_WRITTEN)
  {
    if Guarded(p) {
      forall required, run ensures ApprovedContent(Follow(p, Start(required), run)) {
        SafeguardsSuffice(p, Start(required), run);
      }
    } else if p.manualBounded {
      UnfencedRestoreFails(p);
    } else {
      UnboundedManualFails(p);
    }
    forall required, run ensures ApprovedContent(Follow(AS_WRITTEN, Start(required), run)) {
      CodeKeepsGuarantees(required, run);
    }
  }
}
