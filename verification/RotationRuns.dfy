/**
 Physical backup rotation over whole runs: bases are added, WAL is archived and
 rotations delete, in any number and order.
 */
module RotationRuns {
  import opened Ordered
  import opened RotationPlan

  /** What a plan keeps, by what it means. */
  lemma KeepIsRetained(a: Archive, cutoff: int, protect: Option<Name>)
    ensures forall n :: n in Keep(a, cutoff, protect) <==> Retained(a, cutoff, protect, n)
  {
    forall n ensures n in Keep(a, cutoff, protect) <==> Retained(a, cutoff, protect, n) {
      KeepExact(a, cutoff, protect, n);
    }
  }

  ghost function Without(a: Archive, removed: set<Name>): (r: Archive)
    ensures r.Keys == a.Keys - removed
    ensures forall n :: n in r ==> r[n] == a[n]
  {
    a - removed
  }

  ghost predicate SameServer(a: Archive, b: Archive, t: int) {
    forall n :: Serves(a, t, n) <==> Serves(b, t, n)
  }

  ghost predicate PartOf(b: Archive, a: Archive) {
    forall n :: n in b ==> n in a && b[n] == a[n]
  }

  // ---------- the machine ----------

  /**
   One thing that happens to the archive. A Rotate may stop anywhere (a failed
   verification, a changed inventory, a crash while deleting), so it removes a
   part of its plan; bases are deleted before segments, so segments go only
   once every planned base is gone.
   */
  datatype Event =
    | AddBase(name: Name, facts: Label)
    | ArchiveSegment(segment: Segment)
    | Rotate(cutoff: int, protect: Option<Name>, oldest: Name, bases: set<Name>, wal: set<Segment>)

  /** `full` and `removed` remember what the disk does not: the archive never rotated,
      and every segment ever deleted. */
  datatype State = State(full: Archive, kept: Archive, archived: set<Segment>, removed: set<Segment>)

  const EMPTY := State(map[], map[], {}, {})

  ghost predicate Enabled(s: State, e: Event) {
    match e
    case AddBase(name, _) => name !in s.full
    case ArchiveSegment(_) => true
    case Rotate(cutoff, protect, oldest, bases, wal) =>
      var keep := Keep(s.kept, cutoff, protect);
      && bases <= s.kept.Keys - keep
      && (wal != {} ==>
            && bases == s.kept.Keys - keep
            && IsOldest(s.kept, keep, oldest)
            && wal <= WalPlan(s.archived, s.kept, keep, oldest))
  }

  ghost function Step(s: State, e: Event): State {
    match e
    case AddBase(name, facts) => s.(full := s.full[name := facts], kept := s.kept[name := facts])
    case ArchiveSegment(segment) => s.(archived := s.archived + {segment})
    case Rotate(_, _, _, bases, wal) =>
      s.(kept := Without(s.kept, bases), archived := s.archived - wal, removed := s.removed + wal)
  }

  ghost function After(run: seq<Event>): State {
    if run == [] then EMPTY else Step(After(run[..|run| - 1]), run[|run| - 1])
  }

  ghost predicate Possible(run: seq<Event>) {
    run == [] || (Possible(run[..|run| - 1]) && Enabled(After(run[..|run| - 1]), run[|run| - 1]))
  }

  /** Every cutoff used so far lies at or before t. */
  ghost predicate CutoffsUpTo(run: seq<Event>, t: int) {
    forall e :: e in run && e.Rotate? ==> e.cutoff <= t
  }

  lemma {:induction false} KeptIsPartOfFull(run: seq<Event>)
    requires Possible(run)
    ensures PartOf(After(run).kept, After(run).full)
  {
    if run != [] { KeptIsPartOfFull(run[..|run| - 1]); }
  }

  // ---------- recovery inside the window ----------

  lemma ServesPart(a: Archive, r: Archive, t: int, n: Name)
    requires PartOf(r, a) && Serves(a, t, n) && n in r
    ensures Serves(r, t, n)
  {
  }

  lemma OneServer(a: Archive, t: int, n: Name, k: Name)
    requires Serves(a, t, n) && Serves(a, t, k)
    ensures n == k
  {
  }

  /** A part that holds the server has the same one. */
  lemma PartWithServer(a: Archive, r: Archive, t: int)
    requires PartOf(r, a) && forall n :: Serves(a, t, n) ==> n in r
    ensures SameServer(a, r, t)
  {
    forall n ensures Serves(a, t, n) <==> Serves(r, t, n) {
      if Serves(a, t, n) {
        ServesPart(a, r, t, n);
      } else if Serves(r, t, n) {
        var k := ServerExists(a, t, n);
        ServesPart(a, r, t, k);
        OneServer(r, t, n, k);
      }
    }
  }

  lemma ServerIsKept(a: Archive, cutoff: int, protect: Option<Name>, n: Name, t: int)
    requires Serves(a, t, n) && cutoff <= t
    ensures n in Keep(a, cutoff, protect)
  {
    KeepExact(a, cutoff, protect, n);
    if a[n].start < cutoff { assert Serves(a, cutoff, n); }
  }

  /** Deleting any part of the plan leaves the server of every instant from the cutoff on. */
  lemma PartialRemovalKeepsServer(a: Archive, cutoff: int, protect: Option<Name>, removed: set<Name>, t: int)
    requires removed <= a.Keys - Keep(a, cutoff, protect) && cutoff <= t
    ensures SameServer(a, Without(a, removed), t)
  {
    forall n | Serves(a, t, n) ensures n in Without(a, removed) { ServerIsKept(a, cutoff, protect, n, t); }
    PartWithServer(a, Without(a, removed), t);
  }

  lemma AddKeepsSameServer(a: Archive, b: Archive, name: Name, facts: Label, t: int)
    requires SameServer(a, b, t) && PartOf(b, a) && name !in a
    ensures SameServer(a[name := facts], b[name := facts], t)
  {
    var a', b' := a[name := facts], b[name := facts];
    forall n | Serves(a', t, n) ensures n in b' {
      if n != name {
        ServesPart(a', a, t, n);
        assert Serves(b, t, n);
      }
    }
    PartWithServer(a', b', t);
  }

  /**
   Rotation never changes which base serves an instant inside the window: for every
   t at or after all cutoffs used so far the rotated archive and the archive that was
   never rotated pick the same base. Clock order, protection, interrupted deletions
   and names out of START TIME order make no difference.
   */
  lemma {:induction false} RotationPreservesRecovery(run: seq<Event>, t: int)
    requires Possible(run) && CutoffsUpTo(run, t)
    ensures SameServer(After(run).full, After(run).kept, t)
  {
    if run != [] {
      var before, e := run[..|run| - 1], run[|run| - 1];
      assert e in run && forall x :: x in before ==> x in run;
      RotationPreservesRecovery(before, t);
      KeptIsPartOfFull(before);
      var s := After(before);
      match e
      case AddBase(name, facts) => AddKeepsSameServer(s.full, s.kept, name, facts, t);
      case ArchiveSegment(_) =>
      case Rotate(cutoff, protect, _, bases, _) =>
        PartialRemovalKeepsServer(s.kept, cutoff, protect, bases, t);
    }
  }

  lemma AfterOne(run: seq<Event>, e: Event)
    ensures After(run + [e]) == Step(After(run), e)
    ensures Possible(run + [e]) <==> Possible(run) && Enabled(After(run), e)
  {
    assert (run + [e])[..|run|] == run;
  }

  function LossyArchive(cutoff: int, t: int): Archive {
    map[0 := Label(t, 1, 0), 1 := Label(cutoff, 1, 1), 2 := Label(cutoff, 1, 2)]
  }

  /** A base outside the window, with two newer names and a newer start at the cutoff, may go. */
  lemma OldestMayGo(a: Archive, cutoff: int)
    requires a.Keys == {0, 1, 2} && a[0].start < cutoff && a[1].start == cutoff
    ensures Enabled(State(a, a, {}, {}), Rotate(cutoff, None, 1, {0}, {}))
  {
    assert 1 in a.Keys && 2 in a.Keys && 0 < 1 < 2;
    assert !Serves(a, cutoff, 0) by { assert 1 in a; }
    KeepExact(a, cutoff, None, 0);
  }

  lemma ServerIsLost(a: Archive, t: int)
    requires a.Keys == {0, 1, 2} && a[0].start == t < a[1].start && t < a[2].start
    ensures !SameServer(a, Without(a, {0}), t)
  {
    assert Serves(a, t, 0) && !Serves(Without(a, {0}), t, 0);
  }

  lemma LossyAdds(cutoff: int, t: int) returns (adds: seq<Event>)
    ensures Possible(adds) && After(adds) == State(LossyArchive(cutoff, t), LossyArchive(cutoff, t), {}, {})
    ensures forall e :: e in adds ==> e.AddBase?
  {
    var e0, e1, e2 := AddBase(0, Label(t, 1, 0)), AddBase(1, Label(cutoff, 1, 1)), AddBase(2, Label(cutoff, 1, 2));
    AfterOne([], e0);
    assert [] + [e0] == [e0];
    AfterOne([e0], e1);
    AfterOne([e0] + [e1], e2);
    adds := [e0] + [e1] + [e2];
  }

  lemma LastRotates(adds: seq<Event>, a: Archive, cutoff: int) returns (run: seq<Event>)
    requires Possible(adds) && After(adds) == State(a, a, {}, {}) && forall e :: e in adds ==> e.AddBase?
    requires a.Keys == {0, 1, 2} && a[0].start < cutoff && a[1].start == cutoff
    ensures Possible(run) && CutoffsUpTo(run, cutoff) && After(run).full == a && After(run).kept == Without(a, {0})
  {
    AfterOne(adds, Rotate(cutoff, None, 1, {0}, {}));
    OldestMayGo(a, cutoff);
    run := adds + [Rotate(cutoff, None, 1, {0}, {})];
  }

  /** Before the cutoff a rotation can change the server. */
  lemma LossyRunLoses(cutoff: int, t: int) returns (run: seq<Event>)
    requires t < cutoff
    ensures Possible(run) && CutoffsUpTo(run, cutoff)
    ensures !SameServer(After(run).full, After(run).kept, t)
  {
    var adds := LossyAdds(cutoff, t);
    run := LastRotates(adds, LossyArchive(cutoff, t), cutoff);
    ServerIsLost(LossyArchive(cutoff, t), t);
  }

  /** The promise covers the instants from the latest cutoff on, and no earlier one. */
  lemma RecoveryWindowIsExact(cutoff: int, t: int)
    ensures (forall run :: Possible(run) && CutoffsUpTo(run, cutoff) ==>
               SameServer(After(run).full, After(run).kept, t)) <==> cutoff <= t
  {
    if cutoff <= t {
      forall run | Possible(run) && CutoffsUpTo(run, cutoff)
        ensures SameServer(After(run).full, After(run).kept, t)
      {
        RotationPreservesRecovery(run, t);
      }
    } else {
      var run := LossyRunLoses(cutoff, t);
      assert Possible(run) && CutoffsUpTo(run, cutoff);
    }
  }

  // ---------- one rotation of everything equals any number of rotations ----------

  /** What no run with cutoffs up to c can lose: the window and the two newest names. */
  ghost predicate Essential(a: Archive, c: int, n: Name) {
    n in a && (a[n].start >= c || AtMostOneAbove(a.Keys, n))
  }

  lemma {:induction false} EssentialsSurvive(run: seq<Event>, c: int, n: Name)
    requires Possible(run) && CutoffsUpTo(run, c) && Essential(After(run).full, c, n)
    ensures n in After(run).kept
    decreases |run|
  {
    if run != [] {
      var before, e := run[..|run| - 1], run[|run| - 1];
      assert e in run && forall x :: x in before ==> x in run;
      KeptIsPartOfFull(before);
      var s := After(before);
      match e
      case AddBase(name, facts) =>
        if n != name {
          assert s.full[name := facts].Keys == s.full.Keys + {name};
          assert s.full.Keys <= s.full.Keys + {name};
          if !AtMostOneAbove(s.full.Keys, n) {
            var x, y :| x in s.full.Keys && y in s.full.Keys && n < x < y;
            assert x in s.full[name := facts].Keys && y in s.full[name := facts].Keys;
          }
          EssentialsSurvive(before, c, n);
        }
      case ArchiveSegment(_) => EssentialsSurvive(before, c, n);
      case Rotate(cutoff, protect, _, bases, _) =>
        EssentialsSurvive(before, c, n);
        if s.full[n].start < c {
          assert s.kept.Keys <= s.full.Keys;
          assert AtMostOneAbove(s.kept.Keys, n);
        }
        assert Retained(s.kept, cutoff, protect, n);
        KeepIsRetained(s.kept, cutoff, protect);
    }
  }

  ghost predicate FullRotation(run: seq<Event>, c: int) {
    && run != [] && CutoffsUpTo(run, c)
    && var e := run[|run| - 1];
       var kept := After(run[..|run| - 1]).kept;
       e.Rotate? && e.cutoff == c && e.protect == None && e.bases == kept.Keys - Keep(kept, c, None)
  }

  /** Two archives that agree on the essentials and on the server of c keep the same names. */
  lemma SameEssentialsSameKeep(full: Archive, kept: Archive, c: int)
    requires PartOf(kept, full) && SameServer(full, kept, c)
    requires forall n :: Essential(full, c, n) ==> n in kept
    ensures Keep(kept, c, None) == Keep(full, c, None)
  {
    assert kept.Keys <= full.Keys by { assert forall n :: n in kept ==> n in full; }
    forall m | m in full.Keys && AtMostOneAbove(full.Keys, m) ensures m in kept.Keys {
      assert Essential(full, c, m);
    }
    KeepIsRetained(kept, c, None);
    KeepIsRetained(full, c, None);
    forall n ensures Retained(kept, c, None, n) <==> Retained(full, c, None, n) {
      LastTwoOfSubset(full.Keys, kept.Keys, n);
      if Retained(full, c, None, n) {
        if !Essential(full, c, n) { assert Serves(full, c, n) && Serves(kept, c, n); }
        assert n in kept;
      }
    }
  }

  /**
   A completed, unprotected rotation at the latest cutoff leaves exactly what one
   rotation of the complete history would: earlier runs, however many, protected or
   interrupted, leave no trace.
   */
  lemma RotationIsHistoryIndependent(run: seq<Event>, c: int)
    requires Possible(run) && FullRotation(run, c)
    ensures After(run).kept.Keys == Keep(After(run).full, c, None)
  {
    var before := run[..|run| - 1];
    assert forall x :: x in before ==> x in run;
    var s := After(before);
    KeptIsPartOfFull(before);
    RotationPreservesRecovery(before, c);
    forall n | Essential(s.full, c, n) ensures n in s.kept { EssentialsSurvive(before, c, n); }
    SameEssentialsSameKeep(s.full, s.kept, c);
    assert After(run).kept.Keys == s.kept.Keys - (s.kept.Keys - Keep(s.kept, c, None));
  }

  /** Planning again right after a completed rotation removes nothing. */
  lemma ReplanningRemovesNothing(run: seq<Event>, c: int)
    requires Possible(run) && FullRotation(run, c)
    ensures After(run).kept.Keys == Keep(After(run).kept, c, None)
  {
    var s := After(run);
    KeptIsPartOfFull(run);
    RotationPreservesRecovery(run, c);
    forall n | Essential(s.full, c, n) ensures n in s.kept { EssentialsSurvive(run, c, n); }
    SameEssentialsSameKeep(s.full, s.kept, c);
    RotationIsHistoryIndependent(run, c);
  }

  // ---------- the kept set as a suffix ----------

  ghost predicate NamesFollowStarts(a: Archive) {
    forall n, m :: n in a && m in a && n < m ==> a[n].start < a[m].start
  }

  ghost predicate NewestTwoInWindow(a: Archive, c: int) {
    forall m :: m in a && AtMostOneAbove(a.Keys, m) ==> a[m].start >= c
  }

  /** Every base but the newest is followed by one at most `gap` later. */
  ghost predicate GapsAtMost(a: Archive, gap: int) {
    forall n, m :: n in a && m in a && n < m ==>
      exists k :: k in a && n < k && a[k].start <= a[n].start + gap
  }

  /**
   When name order agrees with START TIME and the two newest bases lie in the window,
   any run ending in a completed rotation keeps exactly the history from the base
   serving the cutoff on, or all of it when none does.
   */
  lemma KeptIsASuffix(run: seq<Event>, c: int, n: Name)
    requires Possible(run) && FullRotation(run, c) && NewestTwoInWindow(After(run).full, c)
    requires NamesFollowStarts(After(run).full)
    ensures n in After(run).kept <==>
              n in After(run).full && forall k :: Serves(After(run).full, c, k) ==> k <= n
  {
    RotationIsHistoryIndependent(run, c);
    KeepIsRetained(After(run).full, c, None);
    if n in After(run).full { RetainedIsASuffix(After(run).full, c, n); }
  }

  lemma RetainedIsASuffix(full: Archive, c: int, n: Name)
    requires NamesFollowStarts(full) && NewestTwoInWindow(full, c) && n in full
    ensures Retained(full, c, None, n) <==> forall k :: Serves(full, c, k) ==> k <= n
  {
    if full[n].start <= c {
      var k := ServerExists(full, c, n);
    } else {
      assert forall k :: Serves(full, c, k) ==> full[k].start < full[n].start;
    }
  }

  lemma ServerReachesBackLessThanAGap(full: Archive, c: int, gap: int, n: Name)
    requires NamesFollowStarts(full) && gap > 0 && GapsAtMost(full, gap)
    requires Serves(full, c, n) && (AtMostOneAbove(full.Keys, n) ==> full[n].start >= c)
    ensures full[n].start > c - gap
  {
    if full[n].start < c {
      var x, y :| x in full.Keys && y in full.Keys && n < x < y;
      var next :| next in full && n < next && full[next].start <= full[n].start + gap;
      assert full[next].start > c;
    }
  }

  /** ... and with gaps of at most `gap` no kept base is `gap` or more before the cutoff. */
  lemma SuffixReachesBackLessThanAGap(run: seq<Event>, c: int, gap: int, n: Name)
    requires Possible(run) && FullRotation(run, c) && NewestTwoInWindow(After(run).full, c)
    requires NamesFollowStarts(After(run).full)
    requires gap > 0 && GapsAtMost(After(run).full, gap) && n in After(run).kept
    ensures n in After(run).full && After(run).full[n].start > c - gap
  {
    var full := After(run).full;
    RotationIsHistoryIndependent(run, c);
    KeepIsRetained(full, c, None);
    if full[n].start < c { ServerReachesBackLessThanAGap(full, c, gap, n); }
  }

  // ---------- no needed WAL is ever removed ----------

  /** No segment at or beyond a kept base's START WAL on its timeline has ever been removed. */
  ghost predicate WalIntact(s: State) {
    forall b, g :: b in s.kept && g in s.removed && g.timeline == s.kept[b].timeline ==>
      g.position < s.kept[b].segment
  }

  /** The WAL a new base needs has not been removed before it came. */
  ghost predicate Fits(s: State, e: Event) {
    e.AddBase? ==>
      forall g :: g in s.removed && g.timeline == e.facts.timeline ==> g.position < e.facts.segment
  }

  ghost predicate AlwaysIntact(run: seq<Event>) {
    WalIntact(After(run)) && (run != [] ==> AlwaysIntact(run[..|run| - 1]))
  }

  ghost predicate BasesFit(run: seq<Event>) {
    run != [] ==> BasesFit(run[..|run| - 1]) && Fits(After(run[..|run| - 1]), run[|run| - 1])
  }

  /** Segments go only once every planned base is gone, so those left are all kept by the plan. */
  lemma PlannedIsBehind(s: State, e: Event, b: Name, g: Segment)
    requires e.Rotate? && Enabled(s, e) && g in e.wal && b in s.kept && b !in e.bases
    requires g.timeline == s.kept[b].timeline
    ensures g.position < s.kept[b].segment
  {
    var keep := Keep(s.kept, e.cutoff, e.protect);
    assert b in keep;
    WalPlanExact(s.archived, s.kept, keep, e.oldest, g);
  }

  lemma RotateKeepsWal(s: State, e: Event)
    requires e.Rotate? && Enabled(s, e) && WalIntact(s)
    ensures WalIntact(Step(s, e))
  {
    var t := Step(s, e);
    forall b, g | b in t.kept && g in t.removed && g.timeline == t.kept[b].timeline
      ensures g.position < t.kept[b].segment
    {
      if g !in s.removed { PlannedIsBehind(s, e, b, g); }
    }
  }

  lemma AddKeepsWalExactly(s: State, e: Event)
    requires e.AddBase? && Enabled(s, e) && WalIntact(s) && PartOf(s.kept, s.full)
    ensures WalIntact(Step(s, e)) <==> Fits(s, e)
  {
    var t := Step(s, e);
    assert t.removed == s.removed && t.kept == s.kept[e.name := e.facts];
    if WalIntact(t) { assert t.kept[e.name] == e.facts; }
  }

  /**
   No rotation, however interrupted, ever removes a segment that a kept base needs: the
   archive stays intact through a whole run exactly when no base is added whose WAL had
   been removed before it came.
   */
  lemma {:induction false} WalStaysIntactExactly(run: seq<Event>)
    requires Possible(run)
    ensures AlwaysIntact(run) <==> BasesFit(run)
  {
    if run != [] {
      var before, e := run[..|run| - 1], run[|run| - 1];
      WalStaysIntactExactly(before);
      KeptIsPartOfFull(before);
      if WalIntact(After(before)) {
        match e
        case AddBase(_, _) => AddKeepsWalExactly(After(before), e);
        case ArchiveSegment(_) =>
        case Rotate(_, _, _, _, _) => RotateKeepsWal(After(before), e);
      } else {
        assert !AlwaysIntact(before);
      }
    }
  }

  /** The i-th event archives g and no later one removes it. */
  ghost predicate ArchivedLast(run: seq<Event>, g: Segment, i: nat)
    requires i < |run|
  {
    run[i] == ArchiveSegment(g) && forall j :: i < j < |run| && run[j].Rotate? ==> g !in run[j].wal
  }

  /** A segment is on disk exactly if it was archived and not removed since, and counts as removed
      exactly if some rotation removed it. */
  lemma {:induction false} SegmentsAreAccounted(run: seq<Event>, g: Segment)
    ensures g in After(run).archived <==> exists i: nat :: i < |run| && ArchivedLast(run, g, i)
    ensures g in After(run).removed <==> exists i :: 0 <= i < |run| && run[i].Rotate? && g in run[i].wal
  {
    if run != [] {
      var front, last := run[..|run| - 1], |run| - 1;
      SegmentsAreAccounted(front, g);
      forall i: nat | i < last
        ensures ArchivedLast(run, g, i) <==> ArchivedLast(front, g, i) && !(run[last].Rotate? && g in run[last].wal)
      {
        assert forall j :: 0 <= j < last ==> front[j] == run[j];
      }
      assert ArchivedLast(run, g, last) <==> run[last] == ArchiveSegment(g);
    }
  }

  /** Whenever a rotation removes WAL, what is left is exactly its kept set, and the WAL is of the
      timeline of a base left that none of the others precedes, before START WAL of each there. */
  lemma WalGoesBehindTheOldest(run: seq<Event>, g: Segment) returns (oldest: Name)
    requires run != [] && Possible(run) && run[|run| - 1].Rotate? && g in run[|run| - 1].wal
    ensures var left := After(run).kept;
            && oldest in left && left[oldest].timeline == g.timeline
            && (forall n :: n in left ==> left[oldest].start <= left[n].start)
            && (forall n :: n in left && left[n].timeline == g.timeline ==> g.position < left[n].segment)
  {
    var s, e := After(run[..|run| - 1]), run[|run| - 1];
    var keep := Keep(s.kept, e.cutoff, e.protect);
    oldest := e.oldest;
    assert After(run).kept.Keys == keep;
    WalPlanExact(s.archived, s.kept, keep, oldest, g);
  }

  /** On each timeline START WAL never goes backwards from one added base to the next. */
  ghost predicate WalMovesForward(run: seq<Event>) {
    forall i, j :: 0 <= i < j < |run| && run[i].AddBase? && run[j].AddBase?
                   && run[i].facts.timeline == run[j].facts.timeline
                   ==> run[i].facts.segment <= run[j].facts.segment
  }

  ghost predicate BehindABase(full: Archive, g: Segment) {
    exists b :: b in full && full[b].timeline == g.timeline && g.position < full[b].segment
  }

  lemma {:induction false} FullComesFromAdds(run: seq<Event>, n: Name) returns (i: nat)
    requires Possible(run) && n in After(run).full
    ensures i < |run| && run[i] == AddBase(n, After(run).full[n])
  {
    var before, e := run[..|run| - 1], run[|run| - 1];
    if e.AddBase? && e.name == n {
      i := |run| - 1;
    } else {
      i := FullComesFromAdds(before, n);
    }
  }

  /** Only segments behind some base ever added have been removed. */
  lemma {:induction false} RemovedIsBehindABase(run: seq<Event>, g: Segment)
    requires Possible(run) && g in After(run).removed
    ensures BehindABase(After(run).full, g)
  {
    var before, e := run[..|run| - 1], run[|run| - 1];
    var s := After(before);
    KeptIsPartOfFull(before);
    if g in s.removed {
      RemovedIsBehindABase(before, g);
      var b :| b in s.full && s.full[b].timeline == g.timeline && g.position < s.full[b].segment;
      assert b in After(run).full && After(run).full[b] == s.full[b];
    } else {
      WalPlanExact(s.archived, s.kept, Keep(s.kept, e.cutoff, e.protect), e.oldest, g);
      assert e.oldest in After(run).full;
    }
  }

  lemma {:induction false} ForwardWalFits(run: seq<Event>)
    requires Possible(run) && WalMovesForward(run)
    ensures BasesFit(run)
  {
    if run != [] {
      var before, e := run[..|run| - 1], run[|run| - 1];
      ForwardWalFits(before);
      forall g | e.AddBase? && g in After(before).removed && g.timeline == e.facts.timeline
        ensures g.position < e.facts.segment
      {
        RemovedIsBehindABase(before, g);
        var full := After(before).full;
        var b :| b in full && full[b].timeline == g.timeline && g.position < full[b].segment;
        var i := FullComesFromAdds(before, b);
        assert run[i] == before[i];
      }
    }
  }

  /**
   If START WAL never goes backwards on a timeline, then after any run no segment,
   plain or compressed, at or beyond a retained base's START WAL on its own timeline
   has ever been removed, even when runs stopped in the middle of their deletions.
   */
  lemma NeededWalIsNeverRemoved(run: seq<Event>, base: Name, segment: Segment)
    requires Possible(run) && WalMovesForward(run)
    requires base in After(run).kept
    requires segment.timeline == After(run).kept[base].timeline
    requires segment.position >= After(run).kept[base].segment
    ensures segment !in After(run).removed
  {
    ForwardWalFits(run);
    WalStaysIntactExactly(run);
  }

  /** A run that loses needed WAL: a base added later starts before a removed segment. */
  lemma BackwardWalLosesSegments() returns (run: seq<Event>)
    ensures Possible(run) && !WalIntact(After(run)) && !BasesFit(run)
  {
    var seg := Segment(1, 4, false);
    var a := map[0 := Label(0, 1, 5)];
    var e0, e1 := AddBase(0, Label(0, 1, 5)), ArchiveSegment(seg);
    var e2, e3 := Rotate(0, None, 0, {}, {seg}), AddBase(1, Label(1, 1, 4));
    AfterOne([], e0);
    assert [] + [e0] == [e0];
    AfterOne([e0], e1);
    LoneBaseFreesWal(a, seg);
    AfterOne([e0] + [e1], e2);
    AfterOne([e0] + [e1] + [e2], e3);
    run := [e0] + [e1] + [e2] + [e3];
    assert After(run).kept[1] == Label(1, 1, 4) && seg in After(run).removed;
    WalStaysIntactExactly(run);
  }

  lemma LoneBaseIsKept(a: Archive)
    requires a.Keys == {0} && a[0].start == 0
    ensures Keep(a, 0, None) == {0}
  {
    KeepUnfolded(a, 0, None, 0);
  }

  lemma LoneBasePlan(a: Archive, seg: Segment, keep: set<Name>)
    requires a.Keys == {0} && a[0] == Label(0, 1, 5) && seg == Segment(1, 4, false) && keep == {0}
    ensures IsOldest(a, keep, 0) && seg in WalPlan({seg}, a, keep, 0)
  {
    WalPlanExact({seg}, a, keep, 0, seg);
  }

  lemma LoneBaseFreesWal(a: Archive, seg: Segment)
    requires a == map[0 := Label(0, 1, 5)] && seg == Segment(1, 4, false)
    ensures Enabled(State(a, a, {seg}, {}), Rotate(0, None, 0, {}, {seg}))
  {
    LoneBaseIsKept(a);
    LoneBasePlan(a, seg, Keep(a, 0, None));
  }
}
