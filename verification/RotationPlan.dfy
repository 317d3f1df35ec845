/**
 Physical backup rotation, one run: which base backups and which archived WAL
 segments are planned for deletion.
 */
module RotationPlan {
  import opened Ordered

  datatype Option<T> = None | Some(value: T)

  /** The stamp of `base-YYYYMMDDTHHMMSSZ`; the fixed width makes name order integer order. */
  type Name = int

  /** What a backup_label says of a base. START TIME need not follow name order. */
  datatype Label = Label(start: int, timeline: nat, segment: nat)

  type Archive = map<Name, Label>

  /** One archived WAL file; `compressed` tells `<segment>.gz` from `<segment>`. */
  datatype Segment = Segment(timeline: nat, position: nat, compressed: bool)

  // ---------- physical_plan ----------

  /** Python's max(names, key=start): the first entry of the largest key. */
  ghost function LatestStart(names: seq<Name>, a: Archive): (best: Name)
    requires names != [] && forall n :: n in names ==> n in a
    ensures best in names
  {
    var last := names[|names| - 1];
    if |names| == 1 then last
    else
      var best := LatestStart(names[..|names| - 1], a);
      if a[last].start > a[best].start then last else best
  }

  /** Python's min(names, key=start): the first entry of the smallest key. */
  ghost function EarliestStart(names: seq<Name>, a: Archive): (best: Name)
    requires names != [] && forall n :: n in names ==> n in a
    ensures best in names
    ensures forall n :: n in names ==> a[best].start <= a[n].start
  {
    var last := names[|names| - 1];
    if |names| == 1 then last
    else
      var best := EarliestStart(names[..|names| - 1], a);
      if a[last].start < a[best].start then last else best
  }

  ghost function Boundary(a: Archive, cutoff: int): set<Name> {
    set n | n in a && a[n].start <= cutoff
  }

  ghost function Anchor(a: Archive, cutoff: int): (n: Name)
    requires a != map[]
    ensures n in a
  {
    if Boundary(a, cutoff) != {} then LatestStart(Sorted(Boundary(a, cutoff)), a)
    else EarliestStart(Sorted(a.Keys), a)
  }

  /** The names physical_plan keeps; every other base of the inventory is planned for deletion. */
  ghost function Keep(a: Archive, cutoff: int, protect: Option<Name>): (keep: set<Name>)
    ensures keep <= a.Keys
  {
    if a == map[] then {}
    else
      (set n | n in a && a[n].start >= cutoff) + LastTwo(a.Keys) + {Anchor(a, cutoff)}
      + (if protect.Some? && protect.value in a then {protect.value} else {})
  }

  // ---------- what the kept set means ----------

  /** Recovery to t replays from the latest base started at or before t; the smaller name breaks ties. */
  ghost predicate Serves(a: Archive, t: int, n: Name) {
    && n in a && a[n].start <= t
    && forall m :: m in a && a[m].start <= t ==>
         a[m].start < a[n].start || (a[m].start == a[n].start && n <= m)
  }

  ghost predicate Retained(a: Archive, cutoff: int, protect: Option<Name>, n: Name) {
    && n in a
    && (a[n].start >= cutoff || AtMostOneAbove(a.Keys, n) || Serves(a, cutoff, n) || protect == Some(n))
  }

  lemma {:induction false} LatestStartIsFirst(names: seq<Name>, a: Archive, m: Name)
    requires names != [] && Ascending(names) && (forall n :: n in names ==> n in a) && m in names
    ensures var best := LatestStart(names, a);
            a[m].start < a[best].start || (a[m].start == a[best].start && best <= m)
  {
    var front := names[..|names| - 1];
    if |names| > 1 {
      assert names == front + [names[|names| - 1]];
      var best := LatestStart(front, a);
      var i :| 0 <= i < |front| && front[i] == best;
      assert names[i] < names[|names| - 1];
      if m in front { LatestStartIsFirst(front, a, m); }
    }
  }

  /** Some base started by t, so exactly one serves t: the one max() picks. */
  lemma LatestServes(a: Archive, t: int)
    requires Boundary(a, t) != {}
    ensures Serves(a, t, LatestStart(Sorted(Boundary(a, t)), a))
  {
    var names := Sorted(Boundary(a, t));
    SortedIsAscending(Boundary(a, t));
    forall m | m in a && a[m].start <= t
      ensures var best := LatestStart(names, a);
              a[m].start < a[best].start || (a[m].start == a[best].start && best <= m)
    {
      assert m in names;
      LatestStartIsFirst(names, a, m);
    }
  }

  lemma ServerExists(a: Archive, t: int, m: Name) returns (n: Name)
    requires m in a && a[m].start <= t
    ensures Serves(a, t, n)
  {
    assert m in Boundary(a, t);
    LatestServes(a, t);
    n := LatestStart(Sorted(Boundary(a, t)), a);
  }

  lemma AnchorExact(a: Archive, cutoff: int, n: Name)
    requires n in a
    ensures Serves(a, cutoff, n) ==> n == Anchor(a, cutoff)
    ensures n == Anchor(a, cutoff) ==> Serves(a, cutoff, n) || a[n].start >= cutoff
  {
    if Boundary(a, cutoff) != {} {
      LatestServes(a, cutoff);
    } else {
      assert n !in Boundary(a, cutoff);
    }
  }

  lemma KeepUnfolded(a: Archive, cutoff: int, protect: Option<Name>, n: Name)
    requires n in a
    ensures n in Keep(a, cutoff, protect) <==>
              a[n].start >= cutoff || n in LastTwo(a.Keys) || n == Anchor(a, cutoff) || protect == Some(n)
  {
  }

  /** physical_plan keeps a base exactly when it lies in the window, has at most one newer
      name above it, serves the cutoff itself, or is explicitly protected. */
  lemma KeepExact(a: Archive, cutoff: int, protect: Option<Name>, n: Name)
    ensures n in Keep(a, cutoff, protect) <==> Retained(a, cutoff, protect, n)
  {
    LastTwoExact(a.Keys, n);
    if n in a {
      AnchorExact(a, cutoff, n);
      KeepUnfolded(a, cutoff, protect, n);
    }
  }

  // ---------- wal_anchor and wal_plan ----------

  /** The chronological anchor; between equal start times Python's set order decides. */
  ghost predicate IsOldest(a: Archive, keep: set<Name>, n: Name)
    requires keep <= a.Keys
  {
    n in keep && forall m :: m in keep ==> a[n].start <= a[m].start
  }

  /** Python's min(retained, key=segment) over the bases of one timeline. */
  ghost function FirstSegment(names: seq<Name>, a: Archive): (best: Name)
    requires names != [] && forall n :: n in names ==> n in a
    ensures best in names
    ensures forall n :: n in names ==> a[best].segment <= a[n].segment
  {
    var last := names[|names| - 1];
    if |names| == 1 then last
    else
      var best := FirstSegment(names[..|names| - 1], a);
      if a[last].segment < a[best].segment then last else best
  }

  ghost function WalAnchor(a: Archive, keep: set<Name>, oldest: Name): (n: Name)
    requires keep <= a.Keys && oldest in keep
    ensures n in keep && a[n].timeline == a[oldest].timeline
  {
    var same := set n | n in keep && a[n].timeline == a[oldest].timeline;
    assert oldest in Sorted(same);
    FirstSegment(Sorted(same), a)
  }

  ghost function WalPlan(archived: set<Segment>, a: Archive, keep: set<Name>, oldest: Name): set<Segment>
    requires keep <= a.Keys && oldest in keep
  {
    var anchor := a[WalAnchor(a, keep, oldest)];
    set s | s in archived && s.timeline == anchor.timeline && s.position < anchor.segment
  }

  /** On the oldest base's timeline and before the START WAL of every retained base of it. */
  ghost predicate BehindAll(a: Archive, keep: set<Name>, oldest: Name, s: Segment)
    requires keep <= a.Keys && oldest in keep
  {
    && s.timeline == a[oldest].timeline
    && forall b :: b in keep && a[b].timeline == s.timeline ==> s.position < a[b].segment
  }

  lemma WalPlanExact(archived: set<Segment>, a: Archive, keep: set<Name>, oldest: Name, s: Segment)
    requires keep <= a.Keys && oldest in keep
    ensures s in WalPlan(archived, a, keep, oldest) <==> s in archived && BehindAll(a, keep, oldest, s)
  {
    var anchor := WalAnchor(a, keep, oldest);
    var same := set n | n in keep && a[n].timeline == a[oldest].timeline;
    assert oldest in Sorted(same);
    forall b | b in keep && a[b].timeline == a[oldest].timeline
      ensures a[anchor].segment <= a[b].segment
    {
      assert b in Sorted(same);
    }
  }

  // ---------- the loop of wal_plan ----------

  /** The listed segments before the anchor's START WAL on its timeline, in listing order. */
  function Before(records: seq<Segment>, anchor: Label): seq<Segment> {
    if records == [] then []
    else
      var front, last := Before(records[..|records| - 1], anchor), records[|records| - 1];
      if last.timeline == anchor.timeline && last.position < anchor.segment then front + [last] else front
  }

  method PlanWal(records: seq<Segment>, anchor: Label) returns (obsolete: seq<Segment>)
    ensures obsolete == Before(records, anchor)
  {
    obsolete := [];
    for i := 0 to |records|
      invariant obsolete == Before(records[..i], anchor)
    {
      assert records[..i + 1][..i] == records[..i];
      if records[i].timeline == anchor.timeline && records[i].position < anchor.segment {
        obsolete := obsolete + [records[i]];
      }
    }
    assert records[..|records|] == records;
  }

  lemma {:induction false} BeforeExact(records: seq<Segment>, anchor: Label, s: Segment)
    ensures s in Before(records, anchor) <==>
              s in records && s.timeline == anchor.timeline && s.position < anchor.segment
  {
    if records != [] { BeforeExact(records[..|records| - 1], anchor, s); }
  }

  /** From the label of wal_anchor the loop plans every listed segment behind all retained
      bases of the oldest base's timeline, and no other. */
  lemma PlannedWalIsBehindAll(records: seq<Segment>, a: Archive, keep: set<Name>, oldest: Name, s: Segment)
    requires keep <= a.Keys && oldest in keep
    ensures s in Before(records, a[WalAnchor(a, keep, oldest)]) <==> s in records && BehindAll(a, keep, oldest, s)
  {
    BeforeExact(records, a[WalAnchor(a, keep, oldest)], s);
    WalPlanExact({s}, a, keep, oldest, s);
  }
}
