/**
 Logical backup rotation: which dump generations are planned for deletion, and the
 two-pass deletion against a directory that others may change meanwhile.
 */
module LogicalRotation {
  import opened Ordered
  import opened RotationPlan

  datatype Kind = Postgres | Media | Manifest

  /** A recognized file; stamp and kind together are its name. */
  datatype Record = Record(stamp: int, kind: Kind, device: nat, inode: nat, size: nat)

  // ---------- logical_plan ----------

  ghost function KindsOf(records: set<Record>, stamp: int): set<Kind> {
    set r | r in records && r.stamp == stamp :: r.kind
  }

  /** Generations of one class: exactly these files, and no ignored or temporary sidecar. */
  ghost function Generations(records: set<Record>, partial: set<int>, kinds: set<Kind>): set<int> {
    set r | r in records && r.stamp !in partial && KindsOf(records, r.stamp) == kinds :: r.stamp
  }

  ghost function Scheduled(records: set<Record>, partial: set<int>): set<int> {
    Generations(records, partial, {Postgres, Media, Manifest})
  }

  ghost function Standalone(records: set<Record>, partial: set<int>): set<int> {
    Generations(records, partial, {Postgres})
  }

  /** `partial` holds the stamps of ignored entries whose name is a logical or temporary one. */
  ghost function LogicalPlan(records: set<Record>, partial: set<int>, protect: Option<int>): set<Record> {
    var scheduled, standalone := Scheduled(records, partial), Standalone(records, partial);
    var obsolete := (scheduled - LastTwo(scheduled)) + (standalone - LastTwo(standalone));
    set r | r in records && r.stamp in obsolete && protect != Some(r.stamp)
  }

  ghost predicate TwoNewer(generations: set<int>, stamp: int) {
    stamp in generations && !AtMostOneAbove(generations, stamp)
  }

  /** A file goes exactly when its generation is complete, has no invalid sidecar, is not
      protected, and two newer complete generations of its class exist. */
  lemma LogicalPlanExact(records: set<Record>, partial: set<int>, protect: Option<int>, r: Record)
    ensures r in LogicalPlan(records, partial, protect) <==>
              && r in records && protect != Some(r.stamp)
              && (TwoNewer(Scheduled(records, partial), r.stamp) || TwoNewer(Standalone(records, partial), r.stamp))
  {
    LastTwoExact(Scheduled(records, partial), r.stamp);
    LastTwoExact(Standalone(records, partial), r.stamp);
  }

  /** Generations go as a whole or not at all, and never a partial or protected one. */
  lemma AllOrNothing(records: set<Record>, partial: set<int>, protect: Option<int>, r: Record, other: Record)
    requires r in LogicalPlan(records, partial, protect)
    ensures r.stamp !in partial && protect != Some(r.stamp)
    ensures other in records && other.stamp == r.stamp ==> other in LogicalPlan(records, partial, protect)
    ensures KindsOf(records, r.stamp) == {Postgres, Media, Manifest} || KindsOf(records, r.stamp) == {Postgres}
  {
  }

  lemma RemainingGenerations(records: set<Record>, partial: set<int>, protect: Option<int>, kinds: set<Kind>, s: int)
    requires kinds == {Postgres, Media, Manifest} || kinds == {Postgres}
    ensures var rest := records - LogicalPlan(records, partial, protect);
            s in Generations(rest, partial, kinds) <==>
              s in Generations(records, partial, kinds)
              && (protect == Some(s) || AtMostOneAbove(Generations(records, partial, kinds), s))
  {
    var plan := LogicalPlan(records, partial, protect);
    var rest := records - plan;
    if r :| r in rest && r.stamp == s {
      forall q | q in records && q.stamp == s ensures q in rest {
        LogicalPlanExact(records, partial, protect, q);
        LogicalPlanExact(records, partial, protect, r);
      }
      assert KindsOf(rest, s) == KindsOf(records, s);
      LogicalPlanExact(records, partial, protect, r);
      assert s in Generations(rest, partial, kinds) ==> s in Generations(records, partial, kinds);
      if s in Generations(records, partial, kinds) {
        assert r in rest && KindsOf(rest, s) == kinds;
        assert s in Generations(rest, partial, kinds);
      }
    } else {
      if r :| r in records && r.stamp == s {
        assert r in plan;
        LogicalPlanExact(records, partial, protect, r);
        OneClass(records, partial, s);
      }
    }
  }

  lemma OneClass(records: set<Record>, partial: set<int>, s: int)
    ensures !(s in Scheduled(records, partial) && s in Standalone(records, partial))
  {
    assert Media in {Postgres, Media, Manifest} && Media !in {Postgres};
  }

  /** The two newest complete generations of each class survive. */
  lemma TwoNewestSurvive(records: set<Record>, partial: set<int>, protect: Option<int>, s: int)
    requires s in LastTwo(Scheduled(records, partial))
    ensures s in Scheduled(records - LogicalPlan(records, partial, protect), partial)
  {
    LastTwoExact(Scheduled(records, partial), s);
    RemainingGenerations(records, partial, protect, {Postgres, Media, Manifest}, s);
  }

  lemma TwoNewestStandaloneSurvive(records: set<Record>, partial: set<int>, protect: Option<int>, s: int)
    requires s in LastTwo(Standalone(records, partial))
    ensures s in Standalone(records - LogicalPlan(records, partial, protect), partial)
  {
    LastTwoExact(Standalone(records, partial), s);
    RemainingGenerations(records, partial, protect, {Postgres}, s);
  }

  lemma NothingLeftToPlan(records: set<Record>, partial: set<int>, protect: Option<int>, kinds: set<Kind>, s: int)
    requires kinds == {Postgres, Media, Manifest} || kinds == {Postgres}
    requires protect != Some(s)
    ensures !TwoNewer(Generations(records - LogicalPlan(records, partial, protect), partial, kinds), s)
  {
    var rest := records - LogicalPlan(records, partial, protect);
    var all, left := Generations(records, partial, kinds), Generations(rest, partial, kinds);
    RemainingGenerations(records, partial, protect, kinds, s);
    forall x, y | s in left && x in left && y in left && s < x ensures y <= x {
      RemainingGenerations(records, partial, protect, kinds, x);
      RemainingGenerations(records, partial, protect, kinds, y);
      assert x in all && y in all;
    }
  }

  /** Planning again after the plan was carried out finds nothing more to delete. */
  lemma ReplanningIsEmpty(records: set<Record>, partial: set<int>, protect: Option<int>)
    ensures LogicalPlan(records - LogicalPlan(records, partial, protect), partial, protect) == {}
  {
    var rest := records - LogicalPlan(records, partial, protect);
    forall r | r in LogicalPlan(rest, partial, protect) ensures false {
      LogicalPlanExact(rest, partial, protect, r);
      NothingLeftToPlan(records, partial, protect, {Postgres, Media, Manifest}, r.stamp);
      NothingLeftToPlan(records, partial, protect, {Postgres}, r.stamp);
    }
  }

  // ---------- the loops of logical_plan ----------

  /** One entry of the groups dictionary: the files listed for a stamp, and its "partial" mark. */
  datatype Group = Group(members: seq<Record>, partial: bool)

  function Listed(records: seq<Record>): set<Record> {
    set r | r in records
  }

  function Stamps(ignored: seq<int>): set<int> {
    set s | s in ignored
  }

  function OfStamp(records: seq<Record>, stamp: int): seq<Record> {
    if records == [] then []
    else
      var front, last := OfStamp(records[..|records| - 1], stamp), records[|records| - 1];
      if last.stamp == stamp then front + [last] else front
  }

  lemma {:induction false} OfStampExact(records: seq<Record>, stamp: int, r: Record)
    ensures r in OfStamp(records, stamp) <==> r in records && r.stamp == stamp
  {
    if records != [] { OfStampExact(records[..|records| - 1], stamp, r); }
  }

  /** The groups that records and ignored sidecars make. */
  ghost predicate Grouped(groups: map<int, Group>, records: seq<Record>, ignored: seq<int>) {
    && (forall s :: s in groups <==> OfStamp(records, s) != [] || s in ignored)
    && (forall s :: s in groups ==> groups[s] == Group(OfStamp(records, s), s in ignored))
  }

  function Kinds(members: seq<Record>): set<Kind> {
    set r | r in members :: r.kind
  }

  function Complete(groups: map<int, Group>, kinds: set<Kind>): set<int> {
    set s | s in groups && !groups[s].partial && Kinds(groups[s].members) == kinds
  }

  lemma CompleteMeansGeneration(groups: map<int, Group>, records: seq<Record>, ignored: seq<int>, kinds: set<Kind>)
    requires Grouped(groups, records, ignored) && kinds != {}
    ensures Complete(groups, kinds) == Generations(Listed(records), Stamps(ignored), kinds)
  {
    var generations := Generations(Listed(records), Stamps(ignored), kinds);
    forall s ensures s in Complete(groups, kinds) <==> s in generations {
      forall r ensures r in OfStamp(records, s) <==> r in Listed(records) && r.stamp == s {
        OfStampExact(records, s, r);
      }
      assert Kinds(OfStamp(records, s)) == KindsOf(Listed(records), s);
      if s in Complete(groups, kinds) {
        var k :| k in kinds;
        var r :| r in OfStamp(records, s) && r.kind == k;
      }
    }
  }

  method GroupByStamp(records: seq<Record>, ignored: seq<int>) returns (groups: map<int, Group>)
    ensures Grouped(groups, records, ignored)
  {
    groups := map[];
    for i := 0 to |records|
      invariant Grouped(groups, records[..i], [])
    {
      assert records[..i + 1][..i] == records[..i];
      var stamp := records[i].stamp;
      var members := if stamp in groups then groups[stamp].members else [];
      groups := groups[stamp := Group(members + [records[i]], false)];
    }
    assert records[..|records|] == records;
    for i := 0 to |ignored|
      invariant Grouped(groups, records, ignored[..i])
    {
      var stamp := ignored[i];
      var members := if stamp in groups then groups[stamp].members else [];
      groups := groups[stamp := Group(members, true)];
    }
    assert ignored[..|ignored|] == ignored;
  }

  /** Python's q[:-2]. */
  function ButLastTwo(q: seq<int>): seq<int> {
    if |q| <= 2 then [] else q[..|q| - 2]
  }

  lemma ButLastTwoExact(stamps: set<int>, s: int)
    ensures s in ButLastTwo(Sorted(stamps)) <==> s in stamps && s !in LastTwo(stamps)
  {
    var q := Sorted(stamps);
    SortedIsAscending(stamps);
    if |q| > 2 && s in q {
      InFront(q, s);
    }
  }

  lemma InFront(q: seq<int>, s: int)
    requires Ascending(q) && |q| > 2 && s in q
    ensures s in q[..|q| - 2] <==> s != q[|q| - 2] && s != q[|q| - 1]
  {
    var i :| 0 <= i < |q| && q[i] == s;
    if i + 2 < |q| { assert q[..|q| - 2][i] == s; }
  }

  /** The obsolete stamps, in ascending order. */
  method ObsoleteStamps(complete: set<int>, alone: set<int>, protect: Option<int>) returns (stamps: seq<int>)
    ensures Ascending(stamps)
    ensures forall s :: s in stamps <==>
              ((s in complete && s !in LastTwo(complete)) || (s in alone && s !in LastTwo(alone))) && protect != Some(s)
  {
    var scheduled := Sort(complete);
    var standalone := Sort(alone);
    var older := ButLastTwo(scheduled) + ButLastTwo(standalone);
    var obsolete := set s | s in older && protect != Some(s);
    stamps := Sort(obsolete);
    SortedIsAscending(obsolete);
    forall s ensures s in older <==>
                       (s in complete && s !in LastTwo(complete)) || (s in alone && s !in LastTwo(alone))
    {
      ButLastTwoExact(complete, s);
      ButLastTwoExact(alone, s);
    }
  }

  /** The files of the given generations, one generation after the other. */
  function Concatenated(records: seq<Record>, stamps: seq<int>): seq<Record> {
    if stamps == [] then []
    else Concatenated(records, stamps[..|stamps| - 1]) + OfStamp(records, stamps[|stamps| - 1])
  }

  lemma {:induction false} InConcatenated(records: seq<Record>, stamps: seq<int>, r: Record)
    ensures r in Concatenated(records, stamps) <==> r in records && r.stamp in stamps
  {
    if stamps != [] {
      InConcatenated(records, stamps[..|stamps| - 1], r);
      OfStampExact(records, stamps[|stamps| - 1], r);
    }
  }

  method Collect(groups: map<int, Group>, ghost records: seq<Record>, ghost ignored: seq<int>, stamps: seq<int>)
    returns (plan: seq<Record>)
    requires Grouped(groups, records, ignored)
    requires forall i :: 0 <= i < |stamps| ==> stamps[i] in groups
    ensures plan == Concatenated(records, stamps)
  {
    plan := [];
    for i := 0 to |stamps|
      invariant plan == Concatenated(records, stamps[..i])
    {
      assert stamps[..i + 1][..i] == stamps[..i];
      plan := plan + groups[stamps[i]].members;
    }
    assert stamps[..|stamps|] == stamps;
  }

  lemma ConcatenatedIsThePlan(
    records: seq<Record>, ignored: seq<int>, protect: Option<int>, stamps: seq<int>, r: Record)
    requires var complete := Scheduled(Listed(records), Stamps(ignored));
             var alone := Standalone(Listed(records), Stamps(ignored));
             forall s :: s in stamps <==>
               && protect != Some(s)
               && ((s in complete && s !in LastTwo(complete)) || (s in alone && s !in LastTwo(alone)))
    ensures r in Concatenated(records, stamps) <==> r in LogicalPlan(Listed(records), Stamps(ignored), protect)
  {
    InConcatenated(records, stamps, r);
  }

  /** logical_plan: the listed files planned for deletion, oldest generation first. `ignored`
      holds the stamps of the ignored entries whose names are logical or temporary ones. */
  method PlanLogical(records: seq<Record>, ignored: seq<int>, protect: Option<int>)
    returns (plan: seq<Record>, ghost stamps: seq<int>)
    ensures forall r :: r in plan <==> r in LogicalPlan(Listed(records), Stamps(ignored), protect)
    ensures Ascending(stamps) && plan == Concatenated(records, stamps)
  {
    var groups := GroupByStamp(records, ignored);
    var scheduled := Complete(groups, {Postgres, Media, Manifest});
    var standalone := Complete(groups, {Postgres});
    CompleteMeansGeneration(groups, records, ignored, {Postgres, Media, Manifest});
    CompleteMeansGeneration(groups, records, ignored, {Postgres});
    var obsolete := ObsoleteStamps(scheduled, standalone, protect);
    forall i | 0 <= i < |obsolete| ensures obsolete[i] in groups { assert obsolete[i] in obsolete; }
    plan := Collect(groups, records, ignored, obsolete);
    stamps := obsolete;
    forall r ensures r in plan <==> r in LogicalPlan(Listed(records), Stamps(ignored), protect) {
      ConcatenatedIsThePlan(records, ignored, protect, obsolete, r);
    }
  }
}
